/** UTF-8 text (section 3 of RFC 3629) and the positions between its characters. */
module Utf8 {

  type Byte = b: int | 0 <= b < 256

  type Scalar = c: int | 0 <= c < 0xD800 || 0xE000 <= c < 0x110000

  function Encode(c: Scalar): (bytes: seq<Byte>)
    ensures 1 <= |bytes| <= 4
    ensures !IsContinuation(bytes[0])
    ensures forall i :: 1 <= i < |bytes| ==> IsContinuation(bytes[i])
  {
    if c < 0x80 then [c]
    else if c < 0x800 then [0xC0 + c / 0x40, 0x80 + c % 0x40]
    else if c < 0x10000 then [0xE0 + c / 0x1000, 0x80 + c / 0x40 % 0x40, 0x80 + c % 0x40]
    else [0xF0 + c / 0x40000, 0x80 + c / 0x1000 % 0x40, 0x80 + c / 0x40 % 0x40, 0x80 + c % 0x40]
  }

  predicate IsContinuation(b: Byte) { 0x80 <= b < 0xC0 }

  function EncodeAll(text: seq<Scalar>): seq<Byte> {
    if text == [] then [] else Encode(text[0]) + EncodeAll(text[1..])
  }

  lemma {:induction false} EncodeConcat(a: seq<Scalar>, b: seq<Scalar>)
    ensures EncodeAll(a + b) == EncodeAll(a) + EncodeAll(b)
  {
    if a == [] {
      assert a + b == b;
    } else {
      assert (a + b)[1..] == a[1..] + b;
      EncodeConcat(a[1..], b);
    }
  }

  /** `str::is_char_boundary`: an end of the text, or a byte that starts a character. */
  predicate IsBoundary(bytes: seq<Byte>, i: int) {
    i == 0 || i == |bytes| || (0 < i < |bytes| && !IsContinuation(bytes[i]))
  }

  /** The byte position of character `k`. */
  function Offset(text: seq<Scalar>, k: nat): nat
    requires k <= |text|
  {
    |EncodeAll(text[..k])|
  }

  lemma OffsetStep(text: seq<Scalar>, k: nat)
    requires k < |text|
    ensures Offset(text, k + 1) == Offset(text, k) + |Encode(text[k])|
  {
    assert text[..k + 1] == text[..k] + [text[k]];
    EncodeConcat(text[..k], [text[k]]);
    assert EncodeAll([text[k]]) == Encode(text[k]) + EncodeAll([]);
  }

  lemma {:induction false} OffsetMonotone(text: seq<Scalar>, i: nat, j: nat)
    requires i <= j <= |text|
    ensures Offset(text, i) + (j - i) <= Offset(text, j)
    decreases j - i
  {
    if i < j {
      OffsetStep(text, j - 1);
      OffsetMonotone(text, i, j - 1);
    }
  }

  lemma OffsetEnds(text: seq<Scalar>)
    ensures Offset(text, 0) == 0 && Offset(text, |text|) == |EncodeAll(text)|
  {
    assert text[..0] == [] && text[..|text|] == text;
  }

  /** The bytes between two character positions are exactly the encoding of those characters. */
  lemma SliceIsEncoding(text: seq<Scalar>, i: nat, j: nat)
    requires i <= j <= |text|
    ensures Offset(text, i) <= Offset(text, j) <= |EncodeAll(text)|
    ensures EncodeAll(text)[Offset(text, i)..Offset(text, j)] == EncodeAll(text[i..j])
  {
    OffsetMonotone(text, i, j);
    OffsetMonotone(text, j, |text|);
    OffsetEnds(text);
    assert text == text[..j] + text[j..] && text[..j] == text[..i] + text[i..j];
    EncodeConcat(text[..j], text[j..]);
    EncodeConcat(text[..i], text[i..j]);
  }

  /** Where the character at a byte position starts. */
  lemma {:induction false} Locate(text: seq<Scalar>, i: nat) returns (k: nat)
    requires i < |EncodeAll(text)|
    ensures k < |text|
    ensures Offset(text, k) <= i < Offset(text, k) + |Encode(text[k])| == Offset(text, k + 1)
    ensures EncodeAll(text)[i] == Encode(text[k])[i - Offset(text, k)]
  {
    hide Encode;
    if i < |Encode(text[0])| {
      k := 0;
      OffsetStep(text, 0);
      OffsetEnds(text);
    } else {
      var rest := Locate(text[1..], i - |Encode(text[0])|);
      k := rest + 1;
      OffsetStep(text, k);
      assert text[..k] == [text[0]] + text[1..][..rest];
      EncodeConcat([text[0]], text[1..][..rest]);
      assert EncodeAll([text[0]]) == Encode(text[0]) + EncodeAll([]);
    }
  }

  /** Byte boundaries are exactly the character positions. */
  lemma BoundaryIsOffset(text: seq<Scalar>, i: nat)
    requires i <= |EncodeAll(text)|
    ensures IsBoundary(EncodeAll(text), i) <==> exists k: nat :: k <= |text| && Offset(text, k) == i
  {
    OffsetEnds(text);
    if i == |EncodeAll(text)| {
    } else {
      var k := Locate(text, i);
      if IsBoundary(EncodeAll(text), i) {
        assert Offset(text, k) == i;
      }
      forall m: nat | m <= |text| && Offset(text, m) == i
        ensures IsBoundary(EncodeAll(text), i)
      {
        if m < k { OffsetMonotone(text, m, k); }
        if m > k { OffsetMonotone(text, k + 1, m); }
      }
    }
  }
}
