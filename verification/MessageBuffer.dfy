/**
 * The local message buffer of the chat view and every update applied to it,
 * each a function of the previous buffer: reversing a newest-first page,
 * prepending a backfilled page, appending a live notification unless its id
 * is already present, and overlaying feedback on the entry with a given id.
 */
module MessageBuffer {
  import opened Js
  import opened ChatMessages

  /** `[...s].reverse()`. */
  function Reversed<T>(s: seq<T>): (r: seq<T>)
    ensures |r| == |s|
    ensures forall k :: 0 <= k < |s| ==> r[k] == s[|s| - 1 - k]
  {
    if s == [] then [] else Reversed(s[1..]) + [s[0]]
  }

  lemma ReversedTwice<T>(s: seq<T>)
    ensures Reversed(Reversed(s)) == s
  {
  }

  /** Reversing keeps exactly the same elements. */
  lemma ReversedSameElements<T>(s: seq<T>)
    ensures forall x :: x in Reversed(s) <==> x in s
  {
    var r := Reversed(s);
    forall x | x in s
      ensures x in r
    {
      var k :| 0 <= k < |s| && s[k] == x;
      assert r[|s| - 1 - k] == x;
    }
  }

  /** `r` is `s` with some elements dropped and the rest in their order. */
  predicate SubsequenceOf<T(==)>(r: seq<T>, s: seq<T>)
    decreases |s|
  {
    if r == [] then true
    else if s == [] then false
    else if r[0] == s[0] then SubsequenceOf(r[1..], s[1..])
    else SubsequenceOf(r, s[1..])
  }

  /** `ms.some(msg => msg.id === id)`. */
  function HasId(ms: seq<Message>, id: string): (b: bool)
    ensures b <==> exists i :: 0 <= i < |ms| && ms[i].id == id
  {
    if ms == [] then false else ms[0].id == id || HasId(ms[1..], id)
  }

  /** No two entries of the buffer share an id (the list is keyed by id when rendered). */
  predicate UniqueIds(ms: seq<Message>) {
    forall i, j :: 0 <= i < j < |ms| ==> ms[i].id != ms[j].id
  }

  lemma {:induction false} ReversedKeepsUniqueIds(ms: seq<Message>)
    requires UniqueIds(ms)
    ensures UniqueIds(Reversed(ms))
  {
    var r := Reversed(ms);
    forall i, j | 0 <= i < j < |r|
      ensures r[i].id != r[j].id
    {
      assert r[i] == ms[|ms| - 1 - i] && r[j] == ms[|ms| - 1 - j];
    }
  }

  /**
   * The realtime INSERT merge: a notification whose id is already in the
   * buffer leaves it as it is, any other is appended last.
   */
  function AppendIfAbsent(ms: seq<Message>, m: Message): (r: seq<Message>)
    ensures r == ms <==> HasId(ms, m.id)
    ensures !HasId(ms, m.id) ==> |r| == |ms| + 1 && r[|ms|] == m
    ensures |r| >= |ms| && r[..|ms|] == ms
    ensures HasId(r, m.id)
    ensures UniqueIds(ms) ==> UniqueIds(r)
  {
    if HasId(ms, m.id) then ms else ms + [m]
  }

  /** A notification delivered twice changes the buffer once. */
  lemma AppendIfAbsentIdempotent(ms: seq<Message>, m: Message)
    ensures AppendIfAbsent(AppendIfAbsent(ms, m), m) == AppendIfAbsent(ms, m)
  {
  }

  /**
   * The send flow as written duplicates a row: when the live channel
   * delivers the user's own row before the insert returns, the row is merged
   * once, and the send flow's unconditional `[...prev, insertedData]`
   * appends it a second time.
   */
  lemma {:induction false} EchoThenSendAsWrittenDuplicates(prev: seq<Message>, row: Message)
    requires !HasId(prev, row.id)
    ensures |AppendIfAbsent(prev, row) + [row]| == |prev| + 2
    ensures !UniqueIds(AppendIfAbsent(prev, row) + [row])
  {
    var r := AppendIfAbsent(prev, row) + [row];
    assert r[|prev|] == row && r[|prev| + 1] == row;
  }

  /** `feedbackText || null`: the empty comment is stored as null. */
  function NullIfEmpty(text: string): (r: Option<string>)
    ensures r.None? <==> text == ""
    ensures r.Some? ==> r.value == text
  {
    if text == "" then None else Some(text)
  }

  /**
   * The feedback mirror: every entry whose id is `id` gets `feedback := kind`
   * and `feedbackText := text or null`; all other entries, the length and the
   * order are kept.
   */
  function ApplyFeedback(ms: seq<Message>, id: string, kind: Feedback, text: string): (r: seq<Message>)
    ensures |r| == |ms|
    ensures forall i :: 0 <= i < |ms| && ms[i].id != id ==> r[i] == ms[i]
    ensures forall i :: 0 <= i < |ms| && ms[i].id == id ==>
      r[i] == ms[i].(feedback := Some(kind), feedbackText := NullIfEmpty(text))
  {
    if ms == [] then []
    else
      var head := if ms[0].id == id then ms[0].(feedback := Some(kind), feedbackText := NullIfEmpty(text)) else ms[0];
      [head] + ApplyFeedback(ms[1..], id, kind, text)
  }

  /** The overlay keeps every id in place, so a buffer without duplicates stays so. */
  lemma ApplyFeedbackKeepsIds(ms: seq<Message>, id: string, kind: Feedback, text: string)
    ensures var r := ApplyFeedback(ms, id, kind, text);
      forall i :: 0 <= i < |ms| ==> r[i].id == ms[i].id && r[i].role == ms[i].role && r[i].message == ms[i].message
    ensures UniqueIds(ms) ==> UniqueIds(ApplyFeedback(ms, id, kind, text))
  {
  }

  /** Feedback on an id that is not in the buffer changes nothing. */
  lemma ApplyFeedbackAbsentId(ms: seq<Message>, id: string, kind: Feedback, text: string)
    requires !HasId(ms, id)
    ensures ApplyFeedback(ms, id, kind, text) == ms
  {
  }

  /** Saving the same feedback twice leaves the buffer as saving it once. */
  lemma ApplyFeedbackIdempotent(ms: seq<Message>, id: string, kind: Feedback, text: string)
    ensures var once := ApplyFeedback(ms, id, kind, text);
      ApplyFeedback(once, id, kind, text) == once
  {
  }

  /**
   * The backfill update as the component writes it:
   * `[...reversedData, ...prev]`.
   */
  function Backfill(prev: seq<Message>, page: seq<Message>): (r: seq<Message>)
    ensures |r| == |page| + |prev|
    ensures r[|page|..] == prev
    ensures forall k :: 0 <= k < |page| ==> r[k] == page[|page| - 1 - k]
  {
    Reversed(page) + prev
  }

  /** The rows of `page` whose id is not already in `prev`, in page order. */
  function Unseen(page: seq<Message>, prev: seq<Message>): (r: seq<Message>)
    ensures |r| <= |page|
    ensures forall x :: x in r ==> x in page && !HasId(prev, x.id)
    ensures forall k :: 0 <= k < |page| && !HasId(prev, page[k].id) ==> page[k] in r
    ensures SubsequenceOf(r, page)
    ensures (forall k :: 0 <= k < |page| ==> !HasId(prev, page[k].id)) ==> r == page
  {
    if page == [] then []
    else
      var rest := Unseen(page[1..], prev);
      if HasId(prev, page[0].id) then
        assert rest != [] ==> rest[0] in rest && rest[0] != page[0];
        rest
      else
        assert ([page[0]] + rest)[1..] == rest;
        [page[0]] + rest
  }

  lemma {:induction false} UnseenKeepsUniqueIds(page: seq<Message>, prev: seq<Message>)
    requires UniqueIds(page)
    ensures UniqueIds(Unseen(page, prev))
  {
    if page != [] {
      var tail := page[1..];
      UnseenKeepsUniqueIds(tail, prev);
      var rest := Unseen(tail, prev);
      if !HasId(prev, page[0].id) {
        forall x | x in rest
          ensures x.id != page[0].id
        {
          var k :| 0 <= k < |tail| && tail[k] == x;
          assert page[k + 1] == x;
        }
        var r := [page[0]] + rest;
        forall i, j | 0 <= i < j < |r|
          ensures r[i].id != r[j].id
        {
          if i == 0 {
            assert r[j] in rest;
          }
        }
      }
    }
  }

  /** Putting rows whose ids the buffer lacks before it keeps a buffer free of duplicate ids. */
  lemma {:induction false} PrependKeepsUniqueIds(front: seq<Message>, back: seq<Message>)
    requires UniqueIds(front) && UniqueIds(back)
    requires forall x :: x in front ==> !HasId(back, x.id)
    ensures UniqueIds(front + back)
  {
    var r := front + back;
    forall i, j | 0 <= i < |front| <= j < |r|
      ensures r[i].id != r[j].id
    {
      assert front[i] in front;
      assert r[j] == back[j - |front|];
    }
  }

  /** Prepending the reversed unseen rows of a page keeps a buffer free of duplicate ids. */
  lemma {:induction false} PrependUnseenKeepsUniqueIds(prev: seq<Message>, page: seq<Message>)
    requires UniqueIds(prev) && UniqueIds(page)
    ensures UniqueIds(Reversed(Unseen(page, prev)) + prev)
  {
    var unseen := Unseen(page, prev);
    UnseenKeepsUniqueIds(page, prev);
    ReversedKeepsUniqueIds(unseen);
    ReversedSameElements(unseen);
    PrependKeepsUniqueIds(Reversed(unseen), prev);
  }

  /**
   * The reversed unseen rows are exactly the unseen page rows, in reverse
   * page order: the front of `BackfillMerge`, whose contract this supplies.
   */
  lemma {:induction false} ReversedFrontOfUnseen(prev: seq<Message>, page: seq<Message>)
    ensures var front := Reversed(Unseen(page, prev));
      && (forall x :: x in front ==> x in page && !HasId(prev, x.id))
      && (forall k :: 0 <= k < |page| && !HasId(prev, page[k].id) ==> page[k] in front)
      && SubsequenceOf(Reversed(front), page)
  {
    var u := Unseen(page, prev);
    ReversedSameElements(u);
    ReversedTwice(u);
  }

  /**
   * The backfill update with the duplicate check the live merge already
   * makes: the reversed page, without the rows the buffer already holds, goes
   * before the unchanged buffer.
   */
  function BackfillMerge(prev: seq<Message>, page: seq<Message>): (r: seq<Message>)
    ensures |r| <= |page| + |prev|
    ensures |r| >= |prev| && r[|r| - |prev|..] == prev
    ensures forall x :: x in r[..|r| - |prev|] ==> x in page && !HasId(prev, x.id)
    ensures forall k :: 0 <= k < |page| && !HasId(prev, page[k].id) ==> page[k] in r[..|r| - |prev|]
    ensures SubsequenceOf(Reversed(r[..|r| - |prev|]), page)
    ensures UniqueIds(prev) && UniqueIds(page) ==> UniqueIds(r)
  {
    var front := Reversed(Unseen(page, prev));
    ReversedFrontOfUnseen(prev, page);
    var r := front + prev;
    assert r[..|r| - |prev|] == front;
    assert UniqueIds(prev) && UniqueIds(page) ==> UniqueIds(r) by {
      if UniqueIds(prev) && UniqueIds(page) {
        PrependUnseenKeepsUniqueIds(prev, page);
      }
    }
    r
  }


  /** When the page and the buffer share no id, the merge is the update as written. */
  lemma {:induction false} BackfillMergeWithoutOverlap(prev: seq<Message>, page: seq<Message>)
    requires forall k :: 0 <= k < |page| ==> !HasId(prev, page[k].id)
    ensures BackfillMerge(prev, page) == Backfill(prev, page)
  {
  }

  function Min(a: int, b: int): int {
    if a <= b then a else b
  }

  /**
   * The store's answer to the history query
   * `.order('created_at', { ascending: false }).range(from, from + PageSize - 1)`
   * over the session's rows `rows`, listed oldest first.
   */
  function StorePage(rows: seq<Message>, from: nat): (page: seq<Message>)
    ensures |page| == if from >= |rows| then 0 else Min(PageSize, |rows| - from)
    ensures forall k :: 0 <= k < |page| ==> page[k] == rows[|rows| - 1 - from - k]
  {
    if from >= |rows| then [] else Reversed(rows)[from .. Min(from + PageSize, |rows|)]
  }

  /**
   * The backfill as written duplicates a row. A session holding at least one
   * page of rows is loaded (the buffer is the newest page, `offset` is
   * `PageSize`); one more row arrives through the live channel and is
   * appended; the next backfill asks for the rows from offset `PageSize` in
   * the store's newest-first order, which now starts with the oldest row the
   * buffer already holds, and prepends it a second time.
   */
  lemma {:induction false} BackfillAsWrittenDuplicatesAfterLiveMerge(rows: seq<Message>, live: Message)
    requires |rows| >= PageSize
    requires !HasId(rows, live.id)
    ensures var loaded := Reversed(StorePage(rows, 0));
      var merged := AppendIfAbsent(loaded, live);
      var next := Backfill(merged, StorePage(rows + [live], PageSize));
      !UniqueIds(next)
  {
    var loaded := Reversed(StorePage(rows, 0));
    var oldest := rows[|rows| - PageSize];
    assert loaded[0] == oldest;
    var merged := AppendIfAbsent(loaded, live);
    assert merged[0] == oldest;
    var page := StorePage(rows + [live], PageSize);
    assert page[0] == oldest;
    var next := Backfill(merged, page);
    assert next[|page| - 1] == oldest;
    assert next[|page|] == oldest;
  }

  /** The corrected merge keeps the buffer free of duplicates in the same run. */
  lemma {:induction false} BackfillMergeAfterLiveMergeKeepsUniqueIds(rows: seq<Message>, live: Message)
    requires UniqueIds(rows)
    requires !HasId(rows, live.id)
    ensures var loaded := Reversed(StorePage(rows, 0));
      var merged := AppendIfAbsent(loaded, live);
      UniqueIds(BackfillMerge(merged, StorePage(rows + [live], PageSize)))
  {
    StorePageKeepsUniqueIds(rows, 0);
    var loaded := Reversed(StorePage(rows, 0));
    ReversedKeepsUniqueIds(StorePage(rows, 0));
    var all := rows + [live];
    assert UniqueIds(all) by {
      forall i, j | 0 <= i < j < |all|
        ensures all[i].id != all[j].id
      {
        if j == |rows| {
          assert all[i] == rows[i];
        }
      }
    }
    StorePageKeepsUniqueIds(all, PageSize);
  }

  lemma StorePageKeepsUniqueIds(rows: seq<Message>, from: nat)
    requires UniqueIds(rows)
    ensures UniqueIds(StorePage(rows, from))
  {
    var page := StorePage(rows, from);
    forall i, j | 0 <= i < j < |page|
      ensures page[i].id != page[j].id
    {
      assert page[i] == rows[|rows| - 1 - from - i];
      assert page[j] == rows[|rows| - 1 - from - j];
    }
  }
}
