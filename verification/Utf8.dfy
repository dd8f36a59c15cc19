/** Byte-bounded, character-safe prefixes (packages/core/context_budget.go,
    utf8Prefix), against the UTF-8 syntax of section 4 of RFC 3629. */
module Utf8 {
  import opened Transcript

  /** The test the code applies: anything but a continuation byte. */
  predicate RuneStart(b: Byte) {
    !(0x80 <= b < 0xC0)
  }

  /** Length of the well-formed character at the front, 0 when there is none. */
  function CharLen(t: Bytes): (n: nat)
    ensures n <= |t| && n <= 4
  {
    if t == [] then 0
    else if t[0] < 0x80 then 1
    else if 0xC2 <= t[0] <= 0xDF then if |t| >= 2 && !RuneStart(t[1]) then 2 else 0
    else if 0xE0 <= t[0] <= 0xEF then
      if |t| >= 3 && SecondOfThree(t[0], t[1]) && !RuneStart(t[2]) then 3 else 0
    else if 0xF0 <= t[0] <= 0xF4 then
      if |t| >= 4 && SecondOfFour(t[0], t[1]) && !RuneStart(t[2]) && !RuneStart(t[3]) then 4 else 0
    else 0
  }

  /** Overlong forms and surrogates are excluded by the second byte. */
  predicate SecondOfThree(first: Byte, second: Byte) {
    !RuneStart(second) && (first == 0xE0 ==> 0xA0 <= second) && (first == 0xED ==> second <= 0x9F)
  }

  predicate SecondOfFour(first: Byte, second: Byte) {
    !RuneStart(second) && (first == 0xF0 ==> 0x90 <= second) && (first == 0xF4 ==> second <= 0x8F)
  }

  predicate Valid(t: Bytes) {
    t == [] || (CharLen(t) > 0 && Valid(t[CharLen(t)..]))
  }

  /** The largest cut at or below `limit` that does not land on a continuation byte. */
  function Cut(text: Bytes, limit: nat): (n: nat)
    requires limit < |text|
    ensures n <= limit && (n == 0 || RuneStart(text[n]))
    ensures forall m :: n < m <= limit ==> !RuneStart(text[m])
  {
    if limit == 0 || RuneStart(text[limit]) then limit else Cut(text, limit - 1)
  }

  function Prefix(text: Bytes, limit: int): Bytes {
    if limit <= 0 then [] else if limit >= |text| then text else text[..Cut(text, limit)]
  }

  method Utf8Prefix(text: Bytes, limit: int) returns (p: Bytes)
    ensures p == Prefix(text, limit)
  {
    if limit <= 0 {
      return [];
    }
    if limit >= |text| {
      return text;
    }
    var cut := limit;
    while cut > 0 && !RuneStart(text[cut])
      invariant 0 <= cut <= limit
      invariant Cut(text, cut) == Cut(text, limit)
    {
      cut := cut - 1;
    }
    return text[..cut];
  }

  lemma {:induction false} CutSkipsChar(text: Bytes, limit: nat)
    requires CharLen(text) > 0 && CharLen(text) <= limit < |text| && RuneStart(text[CharLen(text)])
    ensures Cut(text, limit) == CharLen(text) + Cut(text[CharLen(text)..], limit - CharLen(text))
    decreases limit
  {
    var n := CharLen(text);
    assert text[limit] == text[n..][limit - n];
    if limit > n && !RuneStart(text[limit]) {
      CutSkipsChar(text, limit - 1);
    }
  }

  lemma FirstByteStarts(text: Bytes)
    requires Valid(text) && text != []
    ensures RuneStart(text[0])
    ensures forall k :: 0 < k < CharLen(text) ==> !RuneStart(text[k])
  {
  }

  /** On well-formed text the cut loses at most three bytes and never splits a
      character: what is kept is itself well-formed. */
  lemma {:induction false} CutKeepsCharacters(text: Bytes, limit: nat)
    requires Valid(text) && limit < |text|
    ensures limit - 3 <= Cut(text, limit)
    ensures Valid(text[..Cut(text, limit)])
    decreases |text|
  {
    var n := CharLen(text);
    FirstByteStarts(text);
    if limit < n {
    } else {
      var rest := text[n..];
      FirstByteStarts(rest);
      assert text[n] == rest[0];
      CutSkipsChar(text, limit);
      CutKeepsCharacters(rest, limit - n);
      var kept := text[..Cut(text, limit)];
      assert kept[n..] == rest[..Cut(rest, limit - n)];
      assert CharLen(kept) == n;
    }
  }
}
