/**
 * The row shape of the chat message table (`ChatMessage`) and the settled
 * value of a store call: the store client answers with either its data or an
 * error code (a Postgres SQLSTATE such as "23505" for a unique violation).
 */
module ChatMessages {
  import opened Js

  datatype Role = Agent | User

  datatype Feedback = Like | Dislike

  /**
   * One message row. `feedback` and `feedbackText` are optional columns;
   * `None` stands for both an absent and a null value.
   */
  datatype Message = Message(
    id: string,
    clientId: string,
    sessionId: string,
    role: Role,
    message: string,
    createdAt: string,
    feedback: Option<Feedback>,
    feedbackText: Option<string>)

  /** What an awaited store call settles with: its data or the error it raised. */
  datatype Outcome<+T> = Ok(value: T) | Err(code: string)

  /** Messages fetched per history page (`MESSAGES_PER_PAGE`). */
  const PageSize: nat := 10
}
