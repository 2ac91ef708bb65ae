/**
 Percent-encoding of URL paths (section 2.1 of RFC 3986) as Go's net/url does it: which bytes a
 path escapes, how an escape is written and read, and which raw paths count as validly encoded.
 */
module Percent {
  import opened Wrappers

  type Bytes = seq<byte>

  const NUL: byte := 0
  const PERCENT: byte := 37
  const DOT: byte := 46
  const SLASH: byte := 47
  const COLON: byte := 58
  const QUESTION: byte := 63
  const HASH: byte := 35
  const BACKSLASH: byte := 92

  predicate Letter(c: byte) {
    65 <= c <= 90 || 97 <= c <= 122
  }

  predicate Digit(c: byte) {
    48 <= c <= 57
  }

  /** Letters, digits, - _ . ~ and the reserved $ & + , / : ; = @ stand for themselves in a path. */
  predicate ShouldEscape(c: byte) {
    !(Letter(c) || Digit(c)
      || c == 45 || c == 95 || c == DOT || c == 126
      || c == 36 || c == 38 || c == 43 || c == 44 || c == SLASH || c == COLON || c == 59 || c == 61 || c == 64)
  }

  predicate Hex(c: byte) {
    Digit(c) || 65 <= c <= 70 || 97 <= c <= 102
  }

  function HexDigit(v: byte): byte
    requires v < 16
  {
    if v < 10 then 48 + v else 55 + v
  }

  function HexValue(c: byte): byte
    requires Hex(c)
    ensures HexValue(c) < 16
  {
    if Digit(c) then c - 48 else if c <= 70 then c - 55 else c - 87
  }

  function EscapeByte(c: byte): Bytes {
    if ShouldEscape(c) then [PERCENT, HexDigit(c / 16), HexDigit(c % 16)] else [c]
  }

  function Escape(s: Bytes): Bytes {
    if s == [] then [] else EscapeByte(s[0]) + Escape(s[1..])
  }

  /** A percent sign must be followed by two hex digits, in either case. */
  function Unescape(s: Bytes): Option<Bytes> {
    if s == [] then Some([])
    else if s[0] == PERCENT then
      if |s| < 3 || !Hex(s[1]) || !Hex(s[2]) then None
      else
        var rest := Unescape(s[3..]);
        if rest.None? then None else Some([HexValue(s[1]) * 16 + HexValue(s[2])] + rest.value)
    else
      var rest := Unescape(s[1..]);
      if rest.None? then None else Some([s[0]] + rest.value)
  }

  /** Sub-delimiters and brackets may also stay as they are in an encoded path. */
  predicate ValidEncodedByte(c: byte) {
    || c == 33 || c == 36 || c == 38 || c == 39 || c == 40 || c == 41 || c == 42 || c == 43 || c == 44
    || c == 59 || c == 61 || c == COLON || c == 64 || c == 91 || c == 93 || c == PERCENT || !ShouldEscape(c)
  }

  predicate ValidEncoded(s: Bytes) {
    forall c :: c in s ==> ValidEncodedByte(c)
  }

  /** The triplet %HL occurs, whatever the case of its last digit. */
  predicate HasTriplet(s: Bytes, high: byte, low: byte, lowUpper: byte) {
    exists i :: 0 <= i < |s| - 2 && TripletAt(s, i, high, low, lowUpper)
  }

  predicate TripletAt(s: Bytes, i: nat, high: byte, low: byte, lowUpper: byte)
    requires i + 2 < |s|
  {
    s[i] == PERCENT && s[i + 1] == high && (s[i + 2] == low || s[i + 2] == lowUpper)
  }

  predicate HasEncodedSlash(s: Bytes) {
    HasTriplet(s, 50, 102, 70)
  }

  predicate HasEncodedBackslash(s: Bytes) {
    HasTriplet(s, 53, 99, 67)
  }

  // ------------------------------------------------------------------ algebra

  lemma HexRoundTrip(c: byte)
    ensures Hex(HexDigit(c / 16)) && Hex(HexDigit(c % 16))
    ensures HexValue(HexDigit(c / 16)) * 16 + HexValue(HexDigit(c % 16)) == c
  {
  }

  /** Decoding undoes encoding on every byte string. */
  lemma {:induction false} UnescapeInvertsEscape(s: Bytes)
    ensures Unescape(Escape(s)) == Some(s)
  {
    if s != [] {
      UnescapeInvertsEscape(s[1..]);
      var e := Escape(s);
      if ShouldEscape(s[0]) {
        HexRoundTrip(s[0]);
        assert e[3..] == Escape(s[1..]);
      } else {
        assert e[1..] == Escape(s[1..]);
      }
      assert [s[0]] + s[1..] == s;
    }
  }

  /** What each byte becomes: letters, digits and these characters stay, the rest become two hex digits in
      capitals. */
  lemma EncodingOfByte(c: byte)
    ensures var ch, digits := c as char, "0123456789ABCDEF";
            Escape([c]) ==
            if 'A' <= ch <= 'Z' || 'a' <= ch <= 'z' || '0' <= ch <= '9' || ch in "-_.~$&+,/:;=@" then [c]
            else [PERCENT, digits[c / 16] as byte, digits[c % 16] as byte]
  {
    assert Escape([c]) == EscapeByte(c);
    var ch, others := c as char, "-_.~$&+,/:;=@";
    assert ch in others <==>
           || ch == others[0] || ch == others[1] || ch == others[2] || ch == others[3] || ch == others[4]
           || ch == others[5] || ch == others[6] || ch == others[7] || ch == others[8] || ch == others[9]
           || ch == others[10] || ch == others[11] || ch == others[12];
  }

  lemma EscapeInjective(s: Bytes, t: Bytes)
    requires Escape(s) == Escape(t)
    ensures s == t
  {
    UnescapeInvertsEscape(s);
    UnescapeInvertsEscape(t);
  }

  lemma Regroup(a: Bytes, b: Bytes, c: Bytes)
    ensures a + (b + c) == (a + b) + c
  {
  }

  lemma {:induction false} EscapeConcat(s: Bytes, t: Bytes)
    ensures Escape(s + t) == Escape(s) + Escape(t)
  {
    if s == [] {
      assert s + t == t;
    } else {
      EscapeConcat(s[1..], t);
      assert (s + t)[1..] == s[1..] + t;
      Regroup(EscapeByte(s[0]), Escape(s[1..]), Escape(t));
    }
  }

  /** An escaped path holds only bytes that stand for themselves, percent signs and hex digits, and a
      byte that stands for itself occurs in it exactly when it occurs in the path. */
  lemma {:induction false} EscapedBytes(s: Bytes, c: byte)
    ensures c in Escape(s) ==> !ShouldEscape(c) || c == PERCENT
    ensures !ShouldEscape(c) && !Hex(c) ==> (c in Escape(s) <==> c in s)
  {
    if s != [] {
      EscapedBytes(s[1..], c);
      assert s == [s[0]] + s[1..];
      EscapedByte(s[0], c);
      assert c in Escape(s) <==> c in EscapeByte(s[0]) || c in Escape(s[1..]);
    }
  }

  lemma EscapedByte(b: byte, c: byte)
    ensures c in EscapeByte(b) ==> !ShouldEscape(c) || c == PERCENT
    ensures !ShouldEscape(c) && !Hex(c) ==> (c in EscapeByte(b) <==> c == b)
  {
    HexRoundTrip(b);
  }

  lemma EscapeIsValidEncoded(s: Bytes)
    ensures ValidEncoded(Escape(s))
  {
    forall c | c in Escape(s) ensures ValidEncodedByte(c) {
      EscapedBytes(s, c);
    }
  }

  /** Escaping writes a triplet only for the byte it encodes: no encoded slash ever, no encoded
      backslash unless there was a backslash. */
  lemma {:induction false} EscapeWritesNoTriplet(s: Bytes, high: byte, low: byte, lowUpper: byte, c: byte)
    requires 48 <= high <= 57 && 65 <= lowUpper <= 70 && low == lowUpper + 32
    requires c as int == 16 * (high as int - 48) + (lowUpper as int - 55)
    requires c !in s || !ShouldEscape(c)
    ensures !HasTriplet(Escape(s), high, low, lowUpper)
  {
    if s != [] {
      EscapeWritesNoTriplet(s[1..], high, low, lowUpper, c);
      var head, tail := EscapeByte(s[0]), Escape(s[1..]);
      forall i | 0 <= i < |head + tail| - 2
        ensures !TripletAt(head + tail, i, high, low, lowUpper)
      {
        if i >= |head| {
          assert !TripletAt(tail, i - |head|, high, low, lowUpper);
        } else {
          HexRoundTrip(s[0]);
          assert s[0] in s;
        }
      }
    }
  }

  lemma EscapeHasNoEncodedSeparator(s: Bytes)
    ensures !HasEncodedSlash(Escape(s))
    ensures BACKSLASH !in s ==> !HasEncodedBackslash(Escape(s))
  {
    EscapeWritesNoTriplet(s, 50, 102, 70, SLASH);
    if BACKSLASH !in s {
      EscapeWritesNoTriplet(s, 53, 99, 67, BACKSLASH);
    }
  }

  /** A slash of an escaped path marks a place where the path itself can be cut. */
  lemma {:induction false} CutAtSlash(s: Bytes, a: Bytes, b: Bytes) returns (k: nat)
    requires Escape(s) == a + b && a != [] && a[|a| - 1] == SLASH
    ensures 0 < k <= |s| && s[k - 1] == SLASH && a == Escape(s[..k]) && b == Escape(s[k..])
  {
    assert s != [];
    var head, tail := EscapeByte(s[0]), Escape(s[1..]);
    HexRoundTrip(s[0]);
    assert head + tail == a + b;
    CutBehind(head, tail, a, b);
    var rest := a[|head|..];
    if rest == [] {
      k := 1;
      assert a == head;
      assert s[..1] == [s[0]] && s[..1][1..] == [];
      assert Escape(s[..1]) == head + Escape([]);
    } else {
      var j := CutAtSlash(s[1..], rest, b);
      k := j + 1;
      assert s[..k][1..] == s[1..][..j];
      assert s[k..] == s[1..][j..];
    }
  }

  lemma CutBehind(head: Bytes, tail: Bytes, a: Bytes, b: Bytes)
    requires head + tail == a + b
    requires head != [] && (forall i :: 0 <= i < |head| - 1 ==> head[i] != SLASH)
    requires a != [] && a[|a| - 1] == SLASH
    ensures |head| <= |a| && a == head + a[|head|..] && tail == a[|head|..] + b
  {
    assert (head + tail)[|a| - 1] == SLASH;
    assert |head| <= |a|;
    assert a[..|head|] == (a + b)[..|head|] == head;
    assert tail == (head + tail)[|head|..] == (a + b)[|head|..];
  }
}
