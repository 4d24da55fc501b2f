# Chat synchronisation core, modelled in Dafny

This project models the client side of a landing-page support chat:

- **The chat view's synchronisation engine** (`ChatInterface.tsx`). It covers:
  - session find-or-create with an in-flight guard and recovery from a unique-violation conflict;
  - history loading: the initial page and the backfill on scroll;
  - the latest-window refresh;
  - the realtime INSERT merge and its one-subscription guard;
  - the send flow, with its waiting-indicator timers and its error and apology paths;
  - the feedback modal cycle;
  - the lower-case hexadecimal form of the webhook signature.
- **The message input box** (`ChatInput.tsx`): the 500-character cap, the submit guard and the derived counter values.
- **The participant identity** (`senderId.ts`): a UUID-v4-shaped id from a template and random nibbles, kept in local storage and created when absent.

The modules:

- `Js` holds the JavaScript primitives the code relies on:
  - `toString(16)` and `padStart`;
  - `String.prototype.trim` with its white-space set;
  - the decimal rendering of an integer.
- `ChatMessages` holds the `ChatMessage` row shape and the outcome of a store call.
- `MessageBuffer` holds the pure buffer updaters the component passes to `setMessages`, with their lemmas.
- `SignatureHex` holds the signature encoding.
- `ChatInterface` holds the class `ChatEngine`:
  - its fields are the component's state and refs;
  - every `async` handler is split at its awaits into steps;
  - each step takes, as parameters, what the store, the webhook and the clock answered.
  - Timers are pending counts that event methods consume.
- `ChatInput` holds the class `InputBox`.
- `SenderId` holds the template filling, the storage object and `GetSenderId`.

A React `string | null` state or ref is a `string` here, with `""` standing for `null`. Every test the code makes of such a value (`if (sessionId)`, `sessionId || ''`, `!selectedMessageId`) treats both alike.

## Model

| member | source | states |
|---|---|---|
| Js.HexDigit | src/utils/senderId.ts:21 | a nibble becomes a lower-case hexadecimal digit whose value is the nibble |
| Js.HexDigitOfValue | src/utils/senderId.ts:21 | every lower-case digit is the digit of its own value |
| Js.NumberToHex | src/components/ChatInterface.tsx:382 | `toString(16)`: a numeral of hexadecimal digits that parses back to the number, with no leading zero; it is one digit exactly below 16 |
| Js.PadStart | src/components/ChatInterface.tsx:382 | `padStart`: the length is the larger of the two, the input is the suffix, and the prefix is the fill character |
| Js.NatToDecimal | src/components/ChatInterface.tsx:463 | the decimal numeral of the timestamp: digits only, no leading zero, parses back to the number |
| Js.NatToDecimalInjective | src/components/ChatInterface.tsx:463 | different numbers have different numerals |
| Js.TrimStart | src/components/ChatInput.tsx:16 | drops exactly the leading white space |
| Js.TrimEnd | src/components/ChatInput.tsx:16 | drops exactly the trailing white space |
| Js.PrefixOfSuffix | src/components/ChatInput.tsx:16-17 | cutting white space from the front and then from the back leaves a slice of the text with only white space before and after it |
| Js.Trim | src/components/ChatInput.tsx:16-17 | the text with exactly the white space at its two ends removed: a slice of it with only white space before and after, empty exactly when the text is all white space, otherwise with no white space at either end |
| MessageBuffer.Reversed | src/components/ChatInterface.tsx:204 | `[...data].reverse()`: same length, entry `k` is entry `n-1-k` of the input |
| MessageBuffer.ReversedTwice | src/components/ChatInterface.tsx:204 | reversing twice gives back the page |
| MessageBuffer.ReversedSameElements | src/components/ChatInterface.tsx:204 | reversing keeps exactly the same elements |
| MessageBuffer.HasId | src/components/ChatInterface.tsx:499 | `prev.some(msg => msg.id === id)` holds exactly when some entry has the id |
| MessageBuffer.ReversedKeepsUniqueIds | src/components/ChatInterface.tsx:204 | reversing keeps a page free of duplicate ids |
| MessageBuffer.AppendIfAbsent | src/components/ChatInterface.tsx:498-507 | the buffer is unchanged exactly when the id is present; otherwise the message is appended last and the old buffer is the prefix; unique ids are kept |
| MessageBuffer.AppendIfAbsentIdempotent | src/components/ChatInterface.tsx:498-503 | a notification delivered twice changes the buffer as once |
| MessageBuffer.EchoThenSendAsWrittenDuplicates | src/components/ChatInterface.tsx:338 | the live merge of the user row followed by the send flow's unconditional append holds that row twice |
| MessageBuffer.NullIfEmpty | src/components/ChatInterface.tsx:280 | the stored comment is null exactly for the empty text |
| MessageBuffer.ApplyFeedback | src/components/ChatInterface.tsx:274-284 | length and order are kept; entries with another id are unchanged; entries with the id get the feedback and the text, or null for an empty text |
| MessageBuffer.ApplyFeedbackKeepsIds | src/components/ChatInterface.tsx:275-283 | ids, roles and texts are kept, so unique ids stay unique |
| MessageBuffer.ApplyFeedbackAbsentId | src/components/ChatInterface.tsx:276 | feedback on an id not in the buffer changes nothing |
| MessageBuffer.ApplyFeedbackIdempotent | src/components/ChatInterface.tsx:274-284 | saving the same feedback twice is saving it once |
| MessageBuffer.Backfill | src/components/ChatInterface.tsx:210 | the backfill as written: the reversed page, then the untouched previous buffer |
| MessageBuffer.Unseen | src/components/ChatInterface.tsx:499 | keeps exactly the page rows whose id the buffer lacks, in page order; all rows when none overlaps |
| MessageBuffer.UnseenKeepsUniqueIds | src/components/ChatInterface.tsx:499 | filtering keeps a page free of duplicate ids |
| MessageBuffer.PrependKeepsUniqueIds | src/components/ChatInterface.tsx:209-211 | rows whose ids the buffer lacks, free of duplicates themselves, can go before it without creating a duplicate id |
| MessageBuffer.PrependUnseenKeepsUniqueIds | src/components/ChatInterface.tsx:209-211 | prepending the reversed unseen rows of a page keeps a buffer free of duplicate ids |
| MessageBuffer.ReversedFrontOfUnseen | src/components/ChatInterface.tsx:204-211 | helper of `BackfillMerge`: the reversed unseen rows hold only and all the page rows whose id the buffer lacks, in reverse page order |
| MessageBuffer.BackfillMerge | src/components/ChatInterface.tsx:209-211 | the corrected backfill: the previous buffer is the untouched suffix, and what goes before it is exactly the page rows whose id the buffer lacks, in reverse page order; unique ids stay unique |
| MessageBuffer.BackfillMergeWithoutOverlap | src/components/ChatInterface.tsx:209-211 | without overlap the corrected backfill is the backfill as written |
| MessageBuffer.StorePage | src/components/ChatInterface.tsx:194-199 | the newest-first page from an offset: its length, and entry `k` is the `from+k`-th newest row |
| MessageBuffer.StorePageKeepsUniqueIds | src/components/ChatInterface.tsx:194-199 | a page of rows with distinct ids has distinct ids |
| MessageBuffer.BackfillAsWrittenDuplicatesAfterLiveMerge | src/components/ChatInterface.tsx:209-211 | load, one live append, then backfill as written: the buffer holds a row twice |
| MessageBuffer.BackfillMergeAfterLiveMergeKeepsUniqueIds | src/components/ChatInterface.tsx:209-211 | the same run with the corrected backfill keeps ids unique |
| SignatureHex.ByteToHex | src/components/ChatInterface.tsx:382 | two lower-case digits whose value is the byte |
| SignatureHex.ByteToHexIsPaddedToString | src/components/ChatInterface.tsx:382 | these two digits are `b.toString(16).padStart(2, '0')` for every byte |
| SignatureHex.Encode | src/components/ChatInterface.tsx:381-383 | twice as many characters as bytes, all lower-case hexadecimal |
| SignatureHex.Decode | src/components/ChatInterface.tsx:381-383 | a decoded string has half as many bytes as characters |
| SignatureHex.EncodeAt | src/components/ChatInterface.tsx:381-383 | byte `i` is written at positions `2i` and `2i+1`, high nibble first |
| SignatureHex.DecodeEncode | src/components/ChatInterface.tsx:381-383 | decoding the signature's hexadecimal form gives back its bytes |
| SignatureHex.EncodeDecode | src/components/ChatInterface.tsx:381-383 | every string the decoder accepts is the encoding of what it decodes to |
| SignatureHex.EncodeInjective | src/components/ChatInterface.tsx:381-383 | different signatures have different hexadecimal forms |
| ChatInput.WhitespaceOnlyIsNotSent | src/components/ChatInput.tsx:16 | all-white-space text is never sent |
| ChatInput.SentTextIsTrimmedAndBounded | src/components/ChatInput.tsx:16-17 | the sent text is non-empty, at most 500 characters, and trimmed at both ends |
| ChatInput.CanSubmit | src/components/ChatInput.tsx:16 | the submit guard holds exactly when not disabled, within 500 characters, and some character is not white space |
| ChatInput.InputBox.constructor | src/components/ChatInput.tsx:12 | starts empty, within the cap |
| ChatInput.InputBox.HandleChange | src/components/ChatInput.tsx:22-28 | takes the value exactly when it has at most 500 characters; the cap is kept |
| ChatInput.InputBox.HandleSubmit | src/components/ChatInput.tsx:14-20 | sends the trimmed text and clears the field exactly when the guard passes; otherwise sends nothing and keeps the field |
| ChatInput.InputBox.RemainingChars | src/components/ChatInput.tsx:30 | between 0 and 500 under the cap; 0 exactly at 500 characters |
| ChatInput.InputBox.IsNearLimit | src/components/ChatInput.tsx:31 | holds exactly from 450 characters on |
| ChatInput.InputBox.IsAtLimit | src/components/ChatInput.tsx:32 | holds exactly at 500 characters and implies `IsNearLimit` |
| ChatInput.InputBox.SubmitDisabled | src/components/ChatInput.tsx:50 | the button is disabled exactly when the submit guard would refuse |
| ChatInput.InputBox.ShowCounter | src/components/ChatInput.tsx:58 | the counter shows exactly when the field is non-empty |
| SenderId.SlotsStep | src/utils/senderId.ts:18 | one template character adds one slot when it is `x` or `y` |
| SenderId.SlotsRunOfX | src/utils/senderId.ts:18 | a run of `x` counts one slot per character |
| SenderId.SlotsOfRuns | src/utils/senderId.ts:18 | five runs of `x` (30 in all) around the `y` placeholder and five fixed characters (four dashes and the `4`) make 31 placeholders |
| SenderId.VariantNibble | src/utils/senderId.ts:20 | the variant digit of draw `r` lies in 8..11 and is `8 + r mod 4` |
| SenderId.Fill | src/utils/senderId.ts:18-22 | same length as the template; `x` becomes a hex digit, `y` one of `8`, `9`, `a`, `b`; every other character is kept (which draw goes where is `FillAt`) |
| SenderId.SlotsPrefixStep | src/utils/senderId.ts:18-22 | the placeholders before position i are those of the first character plus those of the rest up to i |
| SenderId.FillStep | src/utils/senderId.ts:18-22 | the callback replaces the first placeholder with the first draw and leaves the remaining draws to the rest of the template |
| SenderId.FillAt | src/utils/senderId.ts:18-22 | placeholder i takes draw number k, where k counts the placeholders before it; an `x` becomes that draw's digit, a `y` the variant digit of that draw |
| SenderId.SlotsOfShape | src/utils/senderId.ts:18 | the template layout has 31 placeholders |
| SenderId.FilledShapeIsUuidShaped | src/utils/senderId.ts:18-22 | filling that layout gives 36 characters: dashes at 8, 13, 18 and 23; `4` at 14; the variant at 19; hex digits elsewhere |
| SenderId.TemplateSlots | src/utils/senderId.ts:18 | the literal template has that layout and 31 placeholders |
| SenderId.FilledTemplateIsUuidShaped | src/utils/senderId.ts:30-34 | any 31 draws fill the template into a UUID-shaped id |
| SenderId.FillTemplate | src/utils/senderId.ts:18-22 | the filled template is UUID-shaped |
| SenderId.FirstGroupOfShape | src/utils/senderId.ts:18-22 | in any template of the v4 layout, the first eight characters become the first eight draws as digits, in order |
| SenderId.FirstGroupOfFill | src/utils/senderId.ts:18-22 | the filled literal template starts with its first eight draws as digits |
| SenderId.ByteNibbles | src/utils/senderId.ts:19 | draw `k` is byte `k` modulo 16 |
| SenderId.GenerateUuid | src/utils/senderId.ts:4-35 | the native id when `randomUUID` works; otherwise the template filled from the bytes modulo 16 when `getRandomValues` works, and from the `Math.random` draws when it does not; the filled id is UUID-shaped |
| SenderId.GenerateUuidFirstGroup | src/utils/senderId.ts:14-34 | without a native id, the first eight digits are the first eight crypto bytes modulo 16 when `getRandomValues` works, otherwise the first eight `Math.random` draws |
| SenderId.Persisted | src/utils/senderId.ts:41-43 | the stored value exactly when it is present and non-empty |
| SenderId.Storage.GetItem | src/utils/senderId.ts:41 | throws exactly when storage is blocked; otherwise returns the stored value |
| SenderId.Storage.SetItem | src/utils/senderId.ts:46 | throws exactly when storage is blocked or full; stores the value otherwise |
| SenderId.GetSenderId | src/utils/senderId.ts:37-59 | returns a persisted id and writes nothing; when none is persisted, generates, stores and returns one; when storage throws, returns a fresh id and persists nothing |
| SenderId.SecondCallReturnsSameId | src/utils/senderId.ts:41-49 | on working storage, a second call returns the identity the first persisted |
| ChatInterface.ApologyText | src/components/ChatInterface.tsx:401-406 | the response body when non-empty, else the default text; never empty |
| ChatInterface.ErrorEntry | src/components/ChatInterface.tsx:462-469 | a local agent entry with the apology text, an `error-` id and no feedback |
| ChatInterface.ErrorEntryIdsDiffer | src/components/ChatInterface.tsx:463 | entries made at different milliseconds have different ids |
| ChatInterface.SendThrows | src/components/ChatInterface.tsx:316-440 | the flow reaches `catch` unless the session and the user row are stored and the webhook is absent, answers OK, or fails with its error text inserted (lines 335, 391, 411) |
| ChatInterface.ChatEngine.constructor | src/components/ChatInterface.tsx:14-37 | the initial state: empty buffer, `loading` and `hasMore` set, no session, no selection |
| ChatInterface.ChatEngine.BeginResolve | src/components/ChatInterface.tsx:88-99 | a cached id is returned with no store call; a resolution in flight is joined with no store call; otherwise the flags are set and one lookup is issued |
| ChatInterface.ChatEngine.CompleteResolve | src/components/ChatInterface.tsx:101-176 | a found row or a new row gives its id; after a `23505` conflict the re-queried row gives its id; any other error, or no row on re-query, is thrown; the flag and the promise are cleared on every exit |
| ChatInterface.ChatEngine.ConcurrentCallsShareOneLookup | src/components/ChatInterface.tsx:94-97 | a second caller joins the first, and the store sees one lookup |
| ChatInterface.ChatEngine.BeginLoad | src/components/ChatInterface.tsx:179-192 | raises the matching loading flag; the query starts at 0 for an initial load and at `offset` for a backfill |
| ChatInterface.ChatEngine.FinishLoad | src/components/ChatInterface.tsx:190-221 | initial load: the reversed page and its length. Backfill: the corrected merge and `offset` plus the page length. `hasMore` is set exactly for a full page. A failure changes none of the three. Both flags end false |
| ChatInterface.ChatEngine.HandleScroll | src/components/ChatInterface.tsx:306-313 | a backfill starts exactly when none is running, more exist, and `scrollTop < 50` |
| ChatInterface.ChatEngine.RefreshLatest | src/components/ChatInterface.tsx:224-256 | without a session it queries nothing and changes nothing; on success the buffer is the reversed newest page and `offset`/`hasMore` follow; on error nothing changes |
| ChatInterface.ChatEngine.SubscriptionEffect | src/components/ChatInterface.tsx:478-481 | subscribes exactly when not subscribed and a session is known; never more than one channel |
| ChatInterface.ChatEngine.SubscriptionCleanup | src/components/ChatInterface.tsx:528-532 | unsubscribes and lowers the guard |
| ChatInterface.ChatEngine.EffectTwiceOpensOneChannel | src/components/ChatInterface.tsx:479-480 | a second run of the effect opens no second channel |
| ChatInterface.ChatEngine.OnRealtimeInsert | src/components/ChatInterface.tsx:494-517 | the buffer becomes `AppendIfAbsent`; an agent message hides the indicator even when it was a duplicate |
| ChatInterface.ChatEngine.NotificationDeliveredTwice | src/components/ChatInterface.tsx:498-503 | a repeated notification changes the buffer as one does |
| ChatInterface.ChatEngine.BeginSend | src/components/ChatInterface.tsx:317 | `sending` is raised |
| ChatInterface.ChatEngine.StopWaiting | src/components/ChatInterface.tsx:398-399 | the debounce is cleared and the indicator hidden |
| ChatInterface.ChatEngine.SendAfterInsert | src/components/ChatInterface.tsx:337-439 | merges the stored user row by id, as the live channel does (the corrected form of line 338, see Findings), and arms the debounce; with no webhook the indicator is hidden; a non-OK response hides it, inserts the body or the default text and schedules a refresh unless that insert rejects; an OK response schedules the 5 s fallback; a throw reaches the `catch` block |
| ChatInterface.ChatEngine.BeginCatch | src/components/ChatInterface.tsx:440-446 | hides the indicator and clears the debounce; then reuses the known session, joins a resolution in flight, or starts a lookup, exactly as `getOrCreateSession` does |
| ChatInterface.ChatEngine.SendTry | src/components/ChatInterface.tsx:320-439 | control reaches `catch` exactly when `SendThrows` holds, and otherwise `sending` ends false; the user row is merged by id (the corrected form of line 338, see Findings) only after its insert succeeds; after a non-OK response the agent text is the body or the default; one refresh when that text is stored; one fallback after an OK response; with no webhook or a non-OK response the indicator is hidden; once the user row is stored, an armed debounce becomes a stray that can still show the indicator |
| ChatInterface.ChatEngine.FinishCatch | src/components/ChatInterface.tsx:448-475 | with a session and a stored apology, one refresh is scheduled; when the session or the insert fails, exactly one local `error-` entry is added and the indicator hidden; the apology text is handed to the store exactly when there is a session; `sending` ends false |
| ChatInterface.ChatEngine.CatchResolvesSession | src/components/ChatInterface.tsx:446 | with no session known, the catch block's own lookup records the session it resolves (lines 124, 158, 166), so the next resolution reuses it without a store call; on failure nothing is recorded and the next call starts a new lookup |
| ChatInterface.ChatEngine.EchoBeforeInsertResponse | src/components/ChatInterface.tsx:338 | with the corrected merge, a user row echoed by the live channel before its insert returns is held once, appended last, and ids stay unique |
| ChatInterface.ChatEngine.OnWaitingDebounce | src/components/ChatInterface.tsx:344-349 | the 300 ms timer shows the indicator, whether the ref holds it or not |
| ChatInterface.ChatEngine.OnRefreshTimer | src/components/ChatInterface.tsx:421-423 | the 1000 ms timer runs the refresh |
| ChatInterface.ChatEngine.OnFallbackTimer | src/components/ChatInterface.tsx:430-435 | the 5000 ms timer runs the refresh, then always hides the indicator and clears the debounce |
| ChatInterface.ChatEngine.HandleFeedback | src/components/ChatInterface.tsx:258-262 | selects the message and the kind, and opens the modal |
| ChatInterface.ChatEngine.HandleModalSubmit | src/components/ChatInterface.tsx:264-298 | without a selection nothing changes; otherwise only the selected entry gets the feedback when the store accepts, and the modal closes and the selection clears on success and failure alike |
| ChatInterface.ChatEngine.HandleModalClose | src/components/ChatInterface.tsx:300-304 | closes the modal and clears the selection |

## Left out

- Rendering, `scrollToBottom`, the scroll-position bookkeeping and restoration effect, the 100 ms scroll timers, and keyboard detection from viewport heights (floating-point window metrics).
- The mount effect is not a separate member: it is `BeginLoad(true)` followed by `FinishLoad(true, …)`.
- The chat container ref is assumed mounted when `handleScroll` runs.
- JSON serialisation of the webhook payload and the HMAC-SHA-256 signature computed with `crypto.subtle`. Only the hexadecimal encoding of the signature bytes is modelled.
- The webhook request itself and its headers.
- Network, store and clock calls are parameters, and so are their results: the lookup, the insert and the re-query of the session resolver, the history and refresh pages, the user-row insert, the webhook outcome, the two agent inserts, the feedback update, `Date.now()` and `toISOString()`.
- The `getSenderId()` call inside the session resolver is not modelled: the lookup outcome stands for the query it parameterises.
- Messages stored by the webhook's agent are not modelled: the code only waits for realtime or the fallback refresh.
- The columns of the agent rows the flow inserts are not modelled; the texts handed to the store are.
- Concurrency is modelled as separately callable steps. Between steps, every handler reads the state current at that step, so a handler closure reading a stale `sessionId` or `offset` from an earlier render is not captured. In `sendMessage` this covers the `catch` block: its `sessionId` test (line 446) and the `session_id` of its local entry (line 464) read the render's value, which is still empty when line 320 resolved the session, while `BeginCatch` and `FinishCatch` read the current one.
- The send flow is split at the awaits of `getOrCreateSession`: `BeginSend`; then `BeginResolve` and `CompleteResolve` (line 320); then `SendTry`; then, when it threw, `BeginCatch`, `CompleteResolve` when a lookup started (line 446), and `FinishCatch`. The user-row insert, the webhook and its error-text insert form one step inside `SendTry`, as do the apology insert and its outcome inside `FinishCatch`; a realtime notification can fall between those steps but not inside one.
- `ChatInterface.ChatEngine.SendAfterInsert` and `ChatInterface.ChatEngine.SendTry`, which calls it: the stored user row is merged by id with `AppendIfAbsent` rather than appended unconditionally as line 338 does; the as-written append is `MessageBuffer.EchoThenSendAsWrittenDuplicates` (see Findings).
- `crypto.randomUUID` is opaque. Its result is an input and is only stated to be returned.
- A crypto or `Math.random` draw is an input nibble sequence. A `getRandomValues` failure part-way through the template is the same as the source being absent.
- Lengths are counted in Unicode characters here, while JavaScript's `length` counts UTF-16 code units; text outside the Basic Multilingual Plane counts differently.
- `ChatInterface.ChatEngine.FinishLoad`: a backfill uses the corrected merge `MessageBuffer.BackfillMerge` rather than the line as written. The as-written update is `MessageBuffer.Backfill` (see Findings).

## Findings

| source | as written | input that shows it | evidently intended | confidence | as-written member | corrected member |
|---|---|---|---|---|---|---|
| src/components/ChatInterface.tsx:209-211 | a backfill prepends the fetched page without checking ids, and the page is fetched at `offset` rows from the newest | a session with at least 10 rows is loaded; then one new row arrives through realtime (or a send) and is appended without advancing `offset`; the next backfill fetches from offset 10, whose first row is the oldest row already shown, so that row appears twice (duplicate React key) | a backfill adds only rows the buffer does not already hold, as the realtime merge does | medium, not executed | MessageBuffer.BackfillAsWrittenDuplicatesAfterLiveMerge | MessageBuffer.BackfillMergeAfterLiveMergeKeepsUniqueIds |
| src/components/ChatInterface.tsx:338 | the stored user row is appended to the buffer without checking whether its id is already there, while the realtime handler (lines 498-506) does check | the session is subscribed and the user sends a message; the realtime INSERT notification of that user row arrives before the insert's response; the handler appends it (the id is new), then line 338 appends the same row again (duplicate React key) | the send flow adds the row only when its id is not already in the buffer, as the realtime handler does | low, not executed | MessageBuffer.EchoThenSendAsWrittenDuplicates | ChatInterface.ChatEngine.EchoBeforeInsertResponse |
