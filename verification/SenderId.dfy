/**
 * The participant identity: a UUID-v4-shaped string kept under `sender_id` in
 * the browser's local storage, generated when absent. The random sources
 * (`crypto.randomUUID`, `crypto.getRandomValues`, `Math.random`) are inputs.
 */
module SenderId {
  import opened Js

  /** The pattern both fallbacks fill: each `x` is a random digit, `y` the variant digit. */
  const Template: string := "xxxxxxxx-xxxx-4xxx-yxxx-xxxxxxxxxxxx"

  /** The local storage key of the identity. */
  const SenderIdKey: string := "sender_id"

  predicate IsSlot(c: char) {
    c == 'x' || c == 'y'
  }

  /** The number of `x` and `y` placeholders in `t`, one random draw each. */
  function Slots(t: string): nat {
    if t == [] then 0 else (if IsSlot(t[0]) then 1 else 0) + Slots(t[1..])
  }

  lemma {:induction false} SlotsStep(t: string, i: nat)
    requires i < |t|
    ensures Slots(t[i..]) == (if IsSlot(t[i]) then 1 else 0) + Slots(t[i + 1..])
  {
    assert t[i..][1..] == t[i + 1..];
  }

  /** Positions `i` to `j - 1` of `t` all hold `x`. */
  predicate AllX(t: string, i: nat, j: nat)
    requires i <= j <= |t|
  {
    forall k :: i <= k < j ==> t[k] == 'x'
  }

  /** A run of `x` counts one slot per character. */
  lemma {:induction false} SlotsRunOfX(t: string, i: nat, j: nat)
    requires i <= j <= |t|
    requires AllX(t, i, j)
    ensures Slots(t[i..]) == (j - i) + Slots(t[j..])
    decreases j - i
  {
    if i < j {
      SlotsStep(t, i);
      SlotsRunOfX(t, i + 1, j);
    }
  }

  /** `(r & 0x3) | 0x8`: the digit of the RFC 4122 variant, 8 to 11. */
  function VariantNibble(r: Nibble): (v: Nibble)
    ensures 8 <= v <= 11
    ensures v == 8 + r % 4
  {
    ((r as bv8 & 3) | 8) as int
  }

  /**
   * `t.replace(/[xy]/g, c => v.toString(16))`: every `x` becomes the next
   * draw as a digit, every `y` the variant digit of the next draw, and every
   * other character stays.
   */
  function Fill(t: string, draws: seq<Nibble>): (id: string)
    requires |draws| == Slots(t)
    ensures |id| == |t|
    ensures forall i :: 0 <= i < |t| && t[i] == 'x' ==> IsLowerHexDigit(id[i])
    ensures forall i :: 0 <= i < |t| && t[i] == 'y' ==> id[i] in "89ab"
    ensures forall i :: 0 <= i < |t| && t[i] != 'x' && t[i] != 'y' ==> id[i] == t[i]
  {
    if t == [] then []
    else if t[0] == 'x' then [HexDigit(draws[0])] + Fill(t[1..], draws[1..])
    else if t[0] == 'y' then [HexDigit(VariantNibble(draws[0]))] + Fill(t[1..], draws[1..])
    else [t[0]] + Fill(t[1..], draws)
  }

  /** The placeholders before position `i` are those of the first character and those after it. */
  lemma SlotsPrefixStep(t: string, i: nat)
    requires 0 < i <= |t|
    ensures Slots(t[..i]) == (if IsSlot(t[0]) then 1 else 0) + Slots(t[1..][..i - 1])
  {
    assert t[..i][1..] == t[1..][..i - 1];
  }

  /** One step of `Fill`: the first character, then the rest filled from the draws it leaves. */
  lemma FillStep(t: string, draws: seq<Nibble>)
    requires |draws| == Slots(t) && t != []
    ensures var step := if IsSlot(t[0]) then 1 else 0;
      && step <= |draws|
      && Fill(t, draws)[1..] == Fill(t[1..], draws[step..])
      && (t[0] == 'x' ==> Fill(t, draws)[0] == HexDigit(draws[0]))
      && (t[0] == 'y' ==> Fill(t, draws)[0] == HexDigit(VariantNibble(draws[0])))
  {
  }

  /**
   * Placeholder `i` of `t` takes the draw numbered by the placeholders
   * before it: an `x` becomes that draw as a digit, a `y` its variant digit.
   */
  lemma {:induction false} FillAt(t: string, draws: seq<Nibble>, i: nat)
    requires |draws| == Slots(t) && i < |t| && IsSlot(t[i])
    ensures Slots(t[..i]) < |draws|
    ensures t[i] == 'x' ==> Fill(t, draws)[i] == HexDigit(draws[Slots(t[..i])])
    ensures t[i] == 'y' ==> Fill(t, draws)[i] == HexDigit(VariantNibble(draws[Slots(t[..i])]))
    decreases i
  {
    FillStep(t, draws);
    if i == 0 {
      assert t[..0] == [];
    } else {
      var step := if IsSlot(t[0]) then 1 else 0;
      FillAt(t[1..], draws[step..], i - 1);
      SlotsPrefixStep(t, i);
      assert Fill(t, draws)[i] == Fill(t, draws)[1..][i - 1];
    }
  }

  /** The shape of a version-4 UUID in lower case. */
  predicate IsUuidShaped(s: string) {
    && |s| == 36
    && s[8] == '-' && s[13] == '-' && s[18] == '-' && s[23] == '-'
    && s[14] == '4'
    && s[19] in "89ab"
    && forall i :: 0 <= i < 36 && i != 8 && i != 13 && i != 14 && i != 18 && i != 19 && i != 23 ==>
         IsLowerHexDigit(s[i])
  }

  /** The layout of `Template`: dashes at 8, 13, 18 and 23, the version at 14, the variant at 19, `x` elsewhere. */
  predicate TemplateShape(t: string) {
    && |t| == 36
    && t[8] == '-' && t[13] == '-' && t[18] == '-' && t[23] == '-'
    && t[14] == '4' && t[19] == 'y'
    && forall i :: 0 <= i < 36 && i != 8 && i != 13 && i != 14 && i != 18 && i != 19 && i != 23 ==> t[i] == 'x'
  }

  /** Five runs of `x` (30 in all) around the `y` placeholder and five fixed characters make 31 slots. */
  lemma {:induction false} SlotsOfRuns(t: string)
    requires |t| == 36
    requires t[8] == '-' && t[13] == '-' && t[18] == '-' && t[23] == '-' && t[14] == '4' && t[19] == 'y'
    requires AllX(t, 0, 8) && AllX(t, 9, 13) && AllX(t, 15, 18) && AllX(t, 20, 23) && AllX(t, 24, 36)
    ensures Slots(t) == 31
  {
    assert t[36..] == [];
    SlotsRunOfX(t, 24, 36);
    assert Slots(t[24..]) == 12;
    SlotsStep(t, 23);
    SlotsRunOfX(t, 20, 23);
    assert Slots(t[20..]) == 15;
    SlotsStep(t, 19);
    SlotsStep(t, 18);
    assert Slots(t[18..]) == 16;
    SlotsRunOfX(t, 15, 18);
    SlotsStep(t, 14);
    SlotsStep(t, 13);
    assert Slots(t[13..]) == 19;
    SlotsRunOfX(t, 9, 13);
    SlotsStep(t, 8);
    assert Slots(t[8..]) == 23;
    SlotsRunOfX(t, 0, 8);
    assert t[0..] == t;
  }

  /** A template of that layout has 31 placeholders. */
  lemma SlotsOfShape(t: string)
    requires TemplateShape(t)
    ensures Slots(t) == 31
  {
    assert AllX(t, 0, 8) && AllX(t, 9, 13) && AllX(t, 15, 18) && AllX(t, 20, 23) && AllX(t, 24, 36);
    SlotsOfRuns(t);
  }

  /** Filling a template of that layout with any draws gives a UUID-shaped string. */
  lemma FilledShapeIsUuidShaped(t: string, draws: seq<Nibble>)
    requires TemplateShape(t) && |draws| == Slots(t)
    ensures IsUuidShaped(Fill(t, draws))
  {
  }

  /** The literal template has that layout, hence 31 placeholders. */
  lemma TemplateSlots()
    ensures TemplateShape(Template) && Slots(Template) == 31
  {
    SlotsOfShape(Template);
  }

  /** Any 31 draws fill the template into a UUID-shaped string. */
  lemma FilledTemplateIsUuidShaped(draws: seq<Nibble>)
    requires |draws| == 31
    ensures Slots(Template) == 31 && IsUuidShaped(Fill(Template, draws))
  {
    TemplateSlots();
    FilledShapeIsUuidShaped(Template, draws);
  }

  /** The first group of a template of that layout is its first eight draws, as digits, in order. */
  lemma FirstGroupOfShape(t: string, draws: seq<Nibble>)
    requires TemplateShape(t) && |draws| == Slots(t)
    ensures |draws| == 31
    ensures forall k :: 0 <= k < 8 ==> Fill(t, draws)[k] == HexDigit(draws[k])
  {
    SlotsOfShape(t);
    forall k | 0 <= k < 8
      ensures Fill(t, draws)[k] == HexDigit(draws[k])
    {
      var u := t[..k];
      assert AllX(u, 0, k);
      SlotsRunOfX(u, 0, k);
      assert u[0..] == u && u[k..] == [];
      FillAt(t, draws, k);
    }
  }

  /** The first group of the filled template is its first eight draws. */
  lemma FirstGroupOfFill(draws: seq<Nibble>)
    requires |draws| == 31
    ensures forall k :: 0 <= k < 8 ==> FillTemplate(draws)[k] == HexDigit(draws[k])
  {
    TemplateSlots();
    FirstGroupOfShape(Template, draws);
  }

  /**
   * The randomness one call of `generateUUID` sees: what `crypto.randomUUID()`
   * returned (`None` when it is missing or threw), the 31 bytes
   * `crypto.getRandomValues` gave (`None` when it is missing or threw), and
   * the 31 values of `(Math.random() * 16) | 0`.
   */
  datatype Entropy = Entropy(native: Option<string>, cryptoBytes: Option<seq<byte>>, mathDraws: seq<Nibble>)

  predicate Supplied(e: Entropy) {
    && (e.cryptoBytes.Some? ==> |e.cryptoBytes.value| == 31)
    && |e.mathDraws| == 31
  }

  /** The template filled from 31 draws. */
  function FillTemplate(draws: seq<Nibble>): (id: string)
    requires |draws| == 31
    ensures IsUuidShaped(id)
  {
    FilledTemplateIsUuidShaped(draws);
    Fill(Template, draws)
  }

  /** `getRandomValues(...)[0] % 16` for each of the 31 bytes. */
  function ByteNibbles(bytes: seq<byte>): (draws: seq<Nibble>)
    requires |bytes| == 31
    ensures |draws| == 31
    ensures forall k :: 0 <= k < 31 ==> draws[k] == bytes[k] % 16
  {
    seq(31, k requires 0 <= k < 31 => bytes[k] % 16)
  }

  /** `generateUUID`: the native id if there is one, else the template filled from the first source that works. */
  function GenerateUuid(e: Entropy): (id: string)
    requires Supplied(e)
    ensures e.native.Some? ==> id == e.native.value
    ensures e.native.None? ==> IsUuidShaped(id)
    ensures e.native.None? && e.cryptoBytes.Some? ==> id == FillTemplate(ByteNibbles(e.cryptoBytes.value))
    ensures e.native.None? && e.cryptoBytes.None? ==> id == FillTemplate(e.mathDraws)
  {
    match e.native
    case Some(u) => u
    case None =>
      match e.cryptoBytes
      case Some(bytes) => FillTemplate(ByteNibbles(bytes))
      case None => FillTemplate(e.mathDraws)
  }

  /**
   * Which source fills the id shows in it: the first eight digits are the
   * first eight crypto bytes modulo 16 when `getRandomValues` works, and the
   * first eight `Math.random` draws when it does not.
   */
  lemma GenerateUuidFirstGroup(e: Entropy)
    requires Supplied(e) && e.native.None?
    ensures e.cryptoBytes.Some? ==>
      forall k :: 0 <= k < 8 ==> GenerateUuid(e)[k] == HexDigit(e.cryptoBytes.value[k] % 16)
    ensures e.cryptoBytes.None? ==> forall k :: 0 <= k < 8 ==> GenerateUuid(e)[k] == HexDigit(e.mathDraws[k])
  {
    if e.cryptoBytes.Some? {
      FirstGroupOfFill(ByteNibbles(e.cryptoBytes.value));
    } else {
      FirstGroupOfFill(e.mathDraws);
    }
  }

  /** The identity local storage holds: a non-empty value under `sender_id`. */
  function Persisted(items: map<string, string>): (r: Option<string>)
    ensures r.Some? <==> SenderIdKey in items && items[SenderIdKey] != ""
    ensures r.Some? ==> r.value == items[SenderIdKey]
  {
    if SenderIdKey in items && items[SenderIdKey] != "" then Some(items[SenderIdKey]) else None
  }

  /** `window.localStorage`, which throws on every access when blocked and on writes when full. */
  class Storage {
    var items: map<string, string>
    var blocked: bool
    var full: bool

    constructor (items: map<string, string>, blocked: bool, full: bool)
      ensures this.items == items && this.blocked == blocked && this.full == full
    {
      this.items, this.blocked, this.full := items, blocked, full;
    }

    /** `getItem`: the stored value, or `threw` when storage is blocked. */
    method GetItem(key: string) returns (value: Option<string>, threw: bool)
      ensures threw == blocked
      ensures !threw ==> value == if key in items then Some(items[key]) else None
    {
      threw := blocked;
      value := if !blocked && key in items then Some(items[key]) else None;
    }

    /** `setItem`: stores the value unless storage is blocked or full, which throws. */
    method SetItem(key: string, value: string) returns (threw: bool)
      modifies this`items
      ensures threw == (blocked || full)
      ensures items == if threw then old(items) else old(items)[key := value]
    {
      threw := blocked || full;
      if !threw {
        items := items[key := value];
      }
    }
  }

  /**
   * `getSenderId`: the persisted identity, else a new one that is stored;
   * when storage throws, an id from `temp` that is not persisted.
   */
  method GetSenderId(storage: Storage, first: Entropy, temp: Entropy) returns (id: string)
    requires Supplied(first) && Supplied(temp)
    modifies storage
    ensures storage.blocked == old(storage.blocked) && storage.full == old(storage.full)
    ensures old(storage.blocked) ==> id == GenerateUuid(temp) && storage.items == old(storage.items)
    ensures !old(storage.blocked) && Persisted(old(storage.items)).Some? ==>
      id == Persisted(old(storage.items)).value && storage.items == old(storage.items)
    ensures !old(storage.blocked) && Persisted(old(storage.items)).None? && !old(storage.full) ==>
      id == GenerateUuid(first) && storage.items == old(storage.items)[SenderIdKey := id]
    ensures !old(storage.blocked) && Persisted(old(storage.items)).None? && old(storage.full) ==>
      id == GenerateUuid(temp) && storage.items == old(storage.items)
  {
    var stored, threw := storage.GetItem(SenderIdKey);
    if threw {
      id := GenerateUuid(temp);
      return;
    }
    if stored.Some? && stored.value != "" {
      id := stored.value;
      return;
    }
    var generated := GenerateUuid(first);
    threw := storage.SetItem(SenderIdKey, generated);
    if threw {
      id := GenerateUuid(temp);
    } else {
      id := generated;
    }
  }

  /** Two calls on working storage give the same identity. */
  method SecondCallReturnsSameId(storage: Storage, e1: Entropy, e2: Entropy, e3: Entropy, e4: Entropy)
    returns (id1: string, id2: string)
    requires Supplied(e1) && Supplied(e2) && Supplied(e3) && Supplied(e4)
    requires !storage.blocked && !storage.full
    requires e1.native.Some? ==> e1.native.value != ""
    modifies storage
    ensures id1 == id2
    ensures Persisted(storage.items) == Some(id1)
  {
    id1 := GetSenderId(storage, e1, e2);
    id2 := GetSenderId(storage, e3, e4);
  }
}
