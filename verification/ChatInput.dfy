/**
 * The message input box: one state field, `message`, that edits overwrite
 * while they stay within the character cap and that a successful submit
 * clears after handing the trimmed text to the send callback.
 */
module ChatInput {
  import opened Js

  /** `MAX_CHARACTERS`. */
  const MaxCharacters: nat := 500

  /** The guard of `handleSubmit`: some non-white-space text, not disabled, within the cap. */
  predicate CanSubmit(message: string, disabled: bool): (b: bool)
    ensures b <==> (!disabled && |message| <= MaxCharacters &&
                    exists i :: 0 <= i < |message| && !IsWhitespace(message[i]))
  {
    Trim(message) != "" && !disabled && |message| <= MaxCharacters
  }

  /** Text made only of white space is never sent, whatever `disabled` is. */
  lemma WhitespaceOnlyIsNotSent(message: string, disabled: bool)
    requires forall i :: 0 <= i < |message| ==> IsWhitespace(message[i])
    ensures !CanSubmit(message, disabled)
  {
  }

  /** What the guard lets through is non-empty, within the cap and has no white space at either end. */
  lemma {:induction false} SentTextIsTrimmedAndBounded(message: string, disabled: bool)
    requires CanSubmit(message, disabled)
    ensures var sent := Trim(message);
      0 < |sent| <= MaxCharacters && !IsWhitespace(sent[0]) && !IsWhitespace(sent[|sent| - 1])
  {
  }

  class InputBox {
    var message: string

    /** The cap `handleChange` enforces. */
    ghost predicate Valid()
      reads this
    {
      |message| <= MaxCharacters
    }

    constructor ()
      ensures Valid() && message == ""
    {
      message := "";
    }

    /** `handleChange`: takes the new value only while it is within the cap. */
    method HandleChange(newValue: string)
      requires Valid()
      modifies this
      ensures Valid()
      ensures |newValue| <= MaxCharacters ==> message == newValue
      ensures |newValue| > MaxCharacters ==> message == old(message)
    {
      if |newValue| <= MaxCharacters {
        message := newValue;
      }
    }

    /**
     * `handleSubmit`: returns the text passed to `onSendMessage`, if any, and
     * clears the field exactly when it sends.
     */
    method HandleSubmit(disabled: bool) returns (sent: Option<string>)
      requires Valid()
      modifies this
      ensures Valid()
      ensures CanSubmit(old(message), disabled) ==> sent == Some(Trim(old(message))) && message == ""
      ensures !CanSubmit(old(message), disabled) ==> sent == None && message == old(message)
    {
      if Trim(message) != "" && !disabled && |message| <= MaxCharacters {
        sent := Some(Trim(message));
        message := "";
      } else {
        sent := None;
      }
    }

    /** `remainingChars`. */
    function RemainingChars(): (r: int)
      reads this
      ensures Valid() ==> 0 <= r <= MaxCharacters
      ensures r == 0 <==> |message| == MaxCharacters
    {
      MaxCharacters - |message|
    }

    /** `isNearLimit`: at most fifty characters left. */
    function IsNearLimit(): (b: bool)
      reads this
      ensures b <==> |message| >= MaxCharacters - 50
    {
      RemainingChars() <= 50
    }

    /** `isAtLimit`: no characters left. */
    function IsAtLimit(): (b: bool)
      reads this
      ensures b <==> |message| == MaxCharacters
      ensures b ==> IsNearLimit()
    {
      RemainingChars() == 0
    }

    /** The `disabled` attribute of the send button. */
    function SubmitDisabled(disabled: bool): (b: bool)
      reads this
      ensures b <==> !CanSubmit(message, disabled)
    {
      Trim(message) == "" || disabled || |message| > MaxCharacters
    }

    /** Whether the character counter is rendered. */
    function ShowCounter(): (b: bool)
      reads this
      ensures b <==> message != ""
    {
      |message| > 0
    }
  }
}
