/** Bytes as Go reads them as text: UTF-8 as in sections 3 and 4 of RFC 3629, where a byte
    that begins no well-formed sequence stands for one replacement character. */
module Utf8 {
  import opened Basics

  type Byte = b: int | 0 <= b < 256

  type Bytes = seq<Byte>

  type Rune = r: int | 0 <= r < 0x110000

  const REPLACEMENT: Rune := 0xFFFD

  predicate Continuation(b: Byte) { 0x80 <= b <= 0xBF }

  /** The range of the second byte of a sequence, by its first byte. */
  predicate Second(first: Byte, b: Byte) {
    if first == 0xE0 then 0xA0 <= b <= 0xBF
    else if first == 0xED then 0x80 <= b <= 0x9F
    else if first == 0xF0 then 0x90 <= b <= 0xBF
    else if first == 0xF4 then 0x80 <= b <= 0x8F
    else Continuation(b)
  }

  /** How many bytes a sequence with this first byte has; 0 for a byte that begins none. */
  function Length(first: Byte): (n: nat)
    ensures n <= 4
  {
    if first < 0x80 then 1
    else if 0xC2 <= first <= 0xDF then 2
    else if 0xE0 <= first <= 0xEF then 3
    else if 0xF0 <= first <= 0xF4 then 4
    else 0
  }

  /** The text begins with a well-formed sequence. */
  predicate WellFormed(s: Bytes) {
    s != [] &&
    var n := Length(s[0]);
    && n > 0 && n <= |s|
    && (n > 1 ==> Second(s[0], s[1]))
    && (n > 2 ==> Continuation(s[2]))
    && (n > 3 ==> Continuation(s[3]))
  }

  function Width(s: Bytes): (n: nat)
    requires s != []
    ensures 1 <= n <= |s|
  {
    if WellFormed(s) then Length(s[0]) else 1
  }

  /** One more six-bit digit. */
  function Digit(high: int, b: Byte): int { high * 0x40 + (b as int - 0x80) }

  function First(s: Bytes): Rune
    requires s != []
  {
    if !WellFormed(s) then REPLACEMENT
    else if Length(s[0]) == 1 then s[0]
    else if Length(s[0]) == 2 then Digit(s[0] as int - 0xC0, s[1])
    else if Length(s[0]) == 3 then Digit(Digit(s[0] as int - 0xE0, s[1]), s[2])
    else Digit(Digit(Digit(s[0] as int - 0xF0, s[1]), s[2]), s[3])
  }

  /** []rune(s). */
  function Runes(s: Bytes): seq<Rune>
    decreases |s|
  {
    if s == [] then [] else [First(s)] + Runes(s[Width(s)..])
  }

  /** utf8.RuneCountInString. */
  function Count(s: Bytes): nat { |Runes(s)| }

  /** utf8.ValidString. */
  predicate Valid(s: Bytes)
    decreases |s|
  {
    s == [] || (WellFormed(s) && Valid(s[Width(s)..]))
  }

  // ---- encoding -----------------------------------------------------------------------

  predicate Surrogate(r: Rune) { 0xD800 <= r <= 0xDFFF }

  /** utf8.AppendRune: a surrogate is written as the replacement character. */
  function Encode(r: Rune): Bytes {
    var high, higher := r / 0x40, r / 0x40 / 0x40;
    if Surrogate(r) then [0xEF, 0xBF, 0xBD]
    else if r < 0x80 then [r]
    else if r < 0x800 then [0xC0 + high, 0x80 + r % 0x40]
    else if r < 0x10000 then [0xE0 + higher, 0x80 + high % 0x40, 0x80 + r % 0x40]
    else [0xF0 + higher / 0x40, 0x80 + higher % 0x40, 0x80 + high % 0x40, 0x80 + r % 0x40]
  }

  /** string(runes). */
  function EncodeAll(runes: seq<Rune>): Bytes {
    if runes == [] then [] else Encode(runes[0]) + EncodeAll(runes[1..])
  }

  predicate EncodesWell(r: Rune) { Encode(r) != [] && WellFormed(Encode(r)) && Width(Encode(r)) == |Encode(r)| }

  lemma EncodeShort(r: Rune)
    requires r < 0x800 || Surrogate(r)
    ensures EncodesWell(r)
  {
  }

  lemma EncodeThree(r: Rune)
    requires 0x800 <= r < 0x10000 && !Surrogate(r)
    ensures EncodesWell(r)
  {
    var high, higher := r / 0x40, r / 0x40 / 0x40;
    assert 0 <= higher < 0x10 && high == 0x40 * higher + high % 0x40;
    assert higher == 0 ==> high % 0x40 >= 0x20;
    assert higher == 0xD ==> high % 0x40 < 0x20;
  }

  lemma EncodeFour(r: Rune)
    requires r >= 0x10000
    ensures EncodesWell(r)
  {
    var higher := r / 0x40 / 0x40;
    assert 0x10 <= higher < 0x110 && higher == 0x40 * (higher / 0x40) + higher % 0x40;
  }

  lemma EncodeWellFormed(r: Rune)
    ensures Encode(r) != [] && WellFormed(Encode(r)) && Width(Encode(r)) == |Encode(r)|
  {
    hide Encode, WellFormed, Width;
    if r < 0x800 || Surrogate(r) {
      EncodeShort(r);
    } else if r < 0x10000 {
      EncodeThree(r);
    } else {
      EncodeFour(r);
    }
  }

  /** What follows a well-formed sequence does not matter to it. */
  lemma WellFormedPrefix(s: Bytes, t: Bytes)
    requires WellFormed(s)
    ensures WellFormed(s + t) && Width(s + t) == Width(s) && First(s + t) == First(s)
  {
    assert forall i :: 0 <= i < |s| ==> (s + t)[i] == s[i];
  }

  lemma {:induction false} EncodeAllValid(runes: seq<Rune>)
    ensures Valid(EncodeAll(runes))
  {
    if runes != [] {
      EncodeAllValid(runes[1..]);
      EncodeWellFormed(runes[0]);
      var s := Encode(runes[0]);
      WellFormedPrefix(s, EncodeAll(runes[1..]));
      assert (s + EncodeAll(runes[1..]))[|s|..] == EncodeAll(runes[1..]);
    }
  }

  lemma LastDigit(high: int, b: Byte)
    requires 0 <= high && Continuation(b)
    ensures Digit(high, b) / 0x40 == high && Digit(high, b) % 0x40 == b as int - 0x80
  {
  }

  lemma EncodeFirst(s: Bytes)
    requires WellFormed(s)
    ensures Encode(First(s)) == s[..Width(s)]
  {
    hide Continuation, Digit;
    if Length(s[0]) == 2 {
      LastDigit(s[0] as int - 0xC0, s[1]);
    } else if Length(s[0]) == 3 {
      var one := s[0] as int - 0xE0;
      LastDigit(one, s[1]);
      LastDigit(Digit(one, s[1]), s[2]);
    } else if Length(s[0]) == 4 {
      var one := s[0] as int - 0xF0;
      LastDigit(one, s[1]);
      LastDigit(Digit(one, s[1]), s[2]);
      LastDigit(Digit(Digit(one, s[1]), s[2]), s[3]);
    }
  }

  /** Encoding what was decoded gives the bytes back exactly when they are valid. */
  lemma {:induction false} EncodeInvertsRunes(s: Bytes)
    ensures EncodeAll(Runes(s)) == s <==> Valid(s)
  {
    if Valid(s) {
      ValidRoundTrip(s);
    } else {
      EncodeAllValid(Runes(s));
    }
  }

  lemma {:induction false} ValidRoundTrip(s: Bytes)
    requires Valid(s)
    ensures EncodeAll(Runes(s)) == s
    decreases |s|
  {
    hide First, Encode, WellFormed, Width;
    if s != [] {
      ValidRoundTrip(s[Width(s)..]);
      EncodeFirst(s);
      assert Runes(s)[1..] == Runes(s[Width(s)..]);
      assert s == s[..Width(s)] + s[Width(s)..];
    }
  }

  // ---- additivity -----------------------------------------------------------------------

  /** Decoding does not look beyond valid text. */
  lemma {:induction false} RunesAfterValid(a: Bytes, b: Bytes)
    requires Valid(a)
    ensures Runes(a + b) == Runes(a) + Runes(b)
    decreases |a|
  {
    hide WellFormed, Width, First;
    if a == [] {
      assert a + b == b;
    } else {
      WellFormedPrefix(a, b);
      assert (a + b)[Width(a)..] == a[Width(a)..] + b;
      RunesAfterValid(a[Width(a)..], b);
    }
  }

  lemma IllFormedBoundary(a: Bytes, b: Bytes)
    requires a != [] && !WellFormed(a) && (b == [] || !Continuation(b[0]))
    ensures !WellFormed(a + b)
  {
    var n := Length(a[0]);
    assert (a + b)[0] == a[0];
    if n <= |a| {
      assert forall i :: 0 <= i < n ==> (a + b)[i] == a[i];
    } else if b != [] {
      assert (a + b)[|a|] == b[0];
    }
  }

  /** A sequence is not continued by a byte that is no continuation. */
  lemma BoundaryFirst(a: Bytes, b: Bytes)
    requires a != [] && (b == [] || !Continuation(b[0]))
    ensures Width(a + b) == Width(a) && First(a + b) == First(a)
  {
    hide WellFormed;
    if WellFormed(a) {
      WellFormedPrefix(a, b);
    } else {
      IllFormedBoundary(a, b);
    }
  }

  /** Decoding is additive wherever the second part does not begin with a continuation. */
  lemma {:induction false} RunesAtBoundary(a: Bytes, b: Bytes)
    requires b == [] || !Continuation(b[0])
    ensures Runes(a + b) == Runes(a) + Runes(b)
    decreases |a|
  {
    hide Continuation, WellFormed, Width, First;
    if a == [] {
      assert a + b == b;
    } else {
      BoundaryFirst(a, b);
      assert a + b != [];
      assert (a + b)[Width(a)..] == a[Width(a)..] + b;
      RunesAtBoundary(a[Width(a)..], b);
    }
  }

  /** Valid text begins at a boundary. */
  lemma ValidBoundary(s: Bytes)
    requires Valid(s) && s != []
    ensures !Continuation(s[0])
  {
  }

  lemma {:induction false} ValidConcat(a: Bytes, b: Bytes)
    requires Valid(a) && Valid(b)
    ensures Valid(a + b)
    decreases |a|
  {
    hide WellFormed, Width, First;
    if a == [] {
      assert a + b == b;
    } else {
      WellFormedPrefix(a, b);
      assert (a + b)[Width(a)..] == a[Width(a)..] + b;
      ValidConcat(a[Width(a)..], b);
    }
  }

  /** The rest of a valid text after a valid part is valid. */
  lemma {:induction false} ValidRest(a: Bytes, b: Bytes)
    requires Valid(a) && Valid(a + b)
    ensures Valid(b)
    decreases |a|
  {
    hide WellFormed, Width, First;
    if a == [] {
      assert a + b == b;
    } else {
      WellFormedPrefix(a, b);
      assert (a + b)[Width(a)..] == a[Width(a)..] + b;
      ValidRest(a[Width(a)..], b);
    }
  }

  /** Where a valid text stands in any text, its runes stand in the runes of the text. */
  lemma RunesOfPart(before: Bytes, part: Bytes, after: Bytes)
    requires Valid(part) && part != []
    ensures Runes(before + part + after) == Runes(before) + Runes(part) + Runes(after)
    ensures Runes(before + part + after)[Count(before)..Count(before) + Count(part)] == Runes(part)
  {
    ValidBoundary(part);
    assert before + part + after == before + (part + after);
    RunesAtBoundary(before, part + after);
    RunesAfterValid(part, after);
    assert Runes(before) + (Runes(part) + Runes(after)) == Runes(before) + Runes(part) + Runes(after);
  }

  /** Two valid texts in a row: the runes of the second follow those of the first. */
  lemma RunesBetween(s: Bytes, start: nat, end: nat)
    requires start <= end <= |s|
    requires Valid(s[..start]) && Valid(s[..end])
    ensures Valid(s[start..end])
    ensures Runes(s[..end]) == Runes(s[..start]) + Runes(s[start..end])
    ensures Count(s[..start]) <= Count(s[..end]) <= Count(s)
    ensures Runes(s)[Count(s[..start])..Count(s[..end])] == Runes(s[start..end])
  {
    assert s[..end] == s[..start] + s[start..end];
    assert s == s[..end] + s[end..];
    RunesAfterValid(s[..start], s[start..end]);
    ValidRest(s[..start], s[start..end]);
    RunesAfterValid(s[..end], s[end..]);
  }

  // ---- searching ------------------------------------------------------------------------

  predicate Occurs(text: Bytes, part: Bytes, at: nat) {
    at + |part| <= |text| && text[at..at + |part|] == part
  }

  /** strings.Index. */
  function Index(text: Bytes, part: Bytes): (r: Option<nat>)
    ensures r.Some? ==> r.value + |part| <= |text|
    decreases |text|
  {
    if |part| > |text| then None
    else if text[..|part|] == part then Some(0)
    else
      match Index(text[1..], part)
      case None => None
      case Some(i) => Some(i + 1)
  }

  lemma OccursNext(text: Bytes, part: Bytes, j: nat)
    requires 0 < j && text != []
    ensures Occurs(text, part, j) <==> Occurs(text[1..], part, j - 1)
  {
    if j + |part| <= |text| {
      assert text[1..][j - 1..j - 1 + |part|] == text[j..j + |part|];
    }
  }

  lemma OccursFirst(text: Bytes, part: Bytes)
    ensures Occurs(text, part, 0) <==> |part| <= |text| && text[..|part|] == part
  {
  }

  lemma TooLong(text: Bytes, part: Bytes, j: nat)
    requires |text| < |part|
    ensures !Occurs(text, part, j)
  {
  }

  /** The index is the first place where the part stands in the text. */
  lemma {:induction false} IndexIsFirst(text: Bytes, part: Bytes)
    ensures var r := Index(text, part);
            && (r.Some? ==> Occurs(text, part, r.value))
            && forall j: nat :: (r.Some? ==> j < r.value) ==> !Occurs(text, part, j)
    decreases |text|
  {
    hide Occurs;
    OccursFirst(text, part);
    if |text| < |part| {
      forall j: nat ensures !Occurs(text, part, j) {
        TooLong(text, part, j);
      }
    } else if text[..|part|] != part {
      IndexIsFirst(text[1..], part);
      var r := Index(text, part);
      if r.Some? {
        OccursNext(text, part, r.value);
      }
      forall j: nat | r.Some? ==> j < r.value ensures !Occurs(text, part, j) {
        if j > 0 {
          OccursNext(text, part, j);
        }
      }
    }
  }

  lemma InsideFirst(s: Bytes, i: nat)
    requires WellFormed(s) && 0 < i < Width(s)
    ensures Continuation(s[i])
  {
  }

  /** Searching bytes finds whole characters: valid text stands in valid text only between
      two characters. */
  lemma {:induction false} SelfSynchronising(text: Bytes, part: Bytes, at: nat)
    requires Valid(text) && Valid(part) && part != [] && Occurs(text, part, at)
    ensures Valid(text[..at]) && Valid(text[at + |part|..])
    decreases |text|
  {
    hide WellFormed, Width, Continuation;
    assert text[at] == text[at..at + |part|][0] == part[0];
    ValidBoundary(part);
    if at == 0 {
      assert text == part + text[|part|..];
      ValidRest(part, text[|part|..]);
    } else {
      var w := Width(text);
      if at < w {
        InsideFirst(text, at);
      }
      assert text[w..][at - w..at - w + |part|] == text[at..at + |part|];
      SelfSynchronising(text[w..], part, at - w);
      assert text[w..][at - w + |part|..] == text[at + |part|..];
      assert text[..at] == text[..w] + text[w..][..at - w];
      FirstAlone(text);
      ValidConcat(text[..w], text[w..][..at - w]);
    }
  }

  lemma FirstAlone(s: Bytes)
    requires WellFormed(s)
    ensures Valid(s[..Width(s)])
  {
    var t := s[..Width(s)];
    assert Width(t) == |t| && WellFormed(t);
    assert t[|t|..] == [];
  }
}
