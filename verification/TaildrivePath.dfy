/**
 Paths of the Taildrive client (native/go_bridge/taildrive.go): reading a reference the way Go's
 net/url does, the canonical form of a remote path, the request URL, the name of a direct child and
 the guard that keeps a directory from being moved into itself.
 */
module TaildrivePath {
  import opened Wrappers
  import opened Percent

  /** A parsed reference. `authority` and `query` keep their raw text; `rawPath` is empty unless the
      path was written in another way than its default encoding. */
  datatype Ref = Ref(
    scheme: Bytes, rootless: Bytes, authority: Bytes, path: Bytes, rawPath: Bytes, query: Bytes, fragment: Bytes)

  datatype Scheme = NoScheme | BadScheme | SchemeUpTo(colon: nat)

  const STAR: byte := 42

  // ------------------------------------------------------------------ reading a reference

  /** The position of the first `c`, or the length when there is none. */
  function Find(s: Bytes, c: byte): (i: nat)
    ensures i <= |s|
    ensures c !in s[..i]
    ensures i < |s| ==> s[i] == c
  {
    if s == [] || s[0] == c then 0 else Find(s[1..], c) + 1
  }

  function Rest(s: Bytes, i: nat): Bytes
    requires i <= |s|
  {
    if i < |s| then s[i + 1..] else []
  }

  predicate Control(c: byte) {
    c < 32 || c == 127
  }

  predicate HasControl(s: Bytes) {
    exists c :: c in s && Control(c)
  }

  function SchemeOf(s: Bytes, i: nat): Scheme
    requires i <= |s|
    decreases |s| - i
  {
    if i == |s| then NoScheme
    else if Letter(s[i]) then SchemeOf(s, i + 1)
    else if Digit(s[i]) || s[i] == 43 || s[i] == 45 || s[i] == DOT then
      if i == 0 then NoScheme else SchemeOf(s, i + 1)
    else if s[i] == COLON then
      if i == 0 then BadScheme else SchemeUpTo(i)
    else NoScheme
  }

  function Lower(s: Bytes): Bytes {
    if s == [] then [] else [if 65 <= s[0] <= 90 then s[0] + 32 else s[0]] + Lower(s[1..])
  }

  predicate Starts(s: Bytes, prefix: Bytes) {
    prefix <= s
  }

  /** A lone question mark at the end is an empty query; otherwise the first one cuts. */
  function CutQuery(s: Bytes): (Bytes, Bytes) {
    var q := Find(s, QUESTION);
    (s[..q], Rest(s, q))
  }

  /** `authorityOk` is the verdict of the authority parser on a non-empty authority. */
  function Parse(raw: Bytes, authorityOk: bool): Option<Ref> {
    var cut := Find(raw, HASH);
    ParseBeforeFragment(raw[..cut], Rest(raw, cut), authorityOk)
  }

  function ParseBeforeFragment(u: Bytes, fragment: Bytes, authorityOk: bool): Option<Ref> {
    if HasControl(u) then None
    else if u == [STAR] then Some(Ref([], [], [], u, [], [], fragment))
    else
      match SchemeOf(u, 0)
      case BadScheme => None
      case NoScheme => ParseAfterScheme([], u, fragment, authorityOk)
      case SchemeUpTo(colon) =>
        if colon < |u| then ParseAfterScheme(Lower(u[..colon]), u[colon + 1..], fragment, authorityOk) else None
  }

  function ParseAfterScheme(scheme: Bytes, u: Bytes, fragment: Bytes, authorityOk: bool): Option<Ref> {
    var (rest, query) := CutQuery(u);
    if !Starts(rest, [SLASH]) && scheme != [] then Some(Ref(scheme, rest, [], [], [], query, fragment))
    else if !Starts(rest, [SLASH]) && COLON in rest[..Find(rest, SLASH)] then None
    else if Starts(rest, [SLASH, SLASH]) && (scheme != [] || !Starts(rest, [SLASH, SLASH, SLASH])) then
      var end := 2 + Find(rest[2..], SLASH);
      if end > 2 && !authorityOk then None else WithPath(scheme, rest[2..end], rest[end..], query, fragment)
    else WithPath(scheme, [], rest, query, fragment)
  }

  function WithPath(scheme: Bytes, authority: Bytes, raw: Bytes, query: Bytes, fragment: Bytes): Option<Ref> {
    match Unescape(raw)
    case None => None
    case Some(path) =>
      Some(Ref(scheme, [], authority, path, if Escape(path) == raw then [] else raw, query, fragment))
  }

  /** The raw path is kept when it is a valid encoding of the path. */
  function EscapedPath(path: Bytes, rawPath: Bytes): Bytes {
    if rawPath != [] && ValidEncoded(rawPath) && Unescape(rawPath) == Some(path) then rawPath
    else if path == [STAR] then path
    else Escape(path)
  }

  // ------------------------------------------------------------------ the canonical form

  function Split(s: Bytes): (parts: seq<Bytes>)
    ensures |parts| > 0
  {
    if s == [] then [[]]
    else
      Prepend(s[0], Split(s[1..]))
  }

  predicate DotSegment(part: Bytes) {
    part == [DOT] || part == [DOT, DOT]
  }

  predicate NoDotSegment(s: Bytes) {
    forall i :: 0 < i < |Split(s)| ==> !DotSegment(Split(s)[i])
  }

  function TrimSlashes(s: Bytes): Bytes {
    if s != [] && s[|s| - 1] == SLASH then TrimSlashes(s[..|s| - 1]) else s
  }

  function OrRoot(s: Bytes): Bytes {
    if s == [] then [SLASH] else s
  }

  predicate Plain(ref: Ref) {
    ref.scheme == [] && ref.rootless == [] && ref.authority == [] && ref.query == [] && ref.fragment == []
  }

  /** A non-empty authority is refused whether or not it parses. */
  function Normalise(raw: Bytes): Option<Bytes> {
    if raw == [] then Some([SLASH])
    else if NUL in raw || BACKSLASH in raw then None
    else
      match Parse(raw, true)
      case None => None
      case Some(ref) =>
        if !Plain(ref) then None
        else
          var decoded := OrRoot(ref.path);
          var escaped := EscapedPath(ref.path, ref.rawPath);
          if decoded[0] != SLASH || NUL in decoded || BACKSLASH in decoded then None
          else if HasEncodedSlash(escaped) || HasEncodedBackslash(escaped) then None
          else if !NoDotSegment(decoded) then None
          else Some(OrRoot(Escape(if decoded == [SLASH] then decoded else TrimSlashes(decoded))))
  }

  // ------------------------------------------------------------------ what canonical means

  /** An absolute path without trailing slash, dot segment, NUL or backslash. */
  predicate Clean(d: Bytes) {
    && d != [] && d[0] == SLASH
    && (d != [SLASH] ==> d[|d| - 1] != SLASH)
    && NUL !in d && BACKSLASH !in d
    && NoDotSegment(d)
  }

  /** Two slashes and then something else: read back, this is a host and not a path. */
  predicate AuthorityLike(s: Bytes) {
    |s| > 2 && s[0] == SLASH && s[1] == SLASH && s[2] != SLASH
  }

  /** Cutting at a slash cuts the list of segments. */
  lemma {:induction false} SplitAtSlash(a: Bytes, b: Bytes)
    ensures Split(a + [SLASH] + b) == Split(a) + Split(b)
  {
    var s := a + [SLASH] + b;
    if a == [] {
      assert s[1..] == b;
    } else {
      SplitAtSlash(a[1..], b);
      assert s[1..] == a[1..] + [SLASH] + b;
      SplitPrepend(a[0], Split(a[1..]), Split(b));
    }
  }

  function Prepend(c: byte, parts: seq<Bytes>): seq<Bytes>
    requires |parts| > 0
  {
    if c == SLASH then [[]] + parts else [[c] + parts[0]] + parts[1..]
  }

  lemma SplitPrepend(c: byte, parts: seq<Bytes>, more: seq<Bytes>)
    requires |parts| > 0
    ensures Prepend(c, parts + more) == Prepend(c, parts) + more
  {
  }

  function Join(parts: seq<Bytes>): Bytes
    requires |parts| > 0
  {
    if |parts| == 1 then parts[0] else parts[0] + [SLASH] + Join(parts[1..])
  }

  lemma {:induction false} JoinUndoesSplit(s: Bytes)
    ensures Join(Split(s)) == s
  {
    if s != [] {
      JoinUndoesSplit(s[1..]);
      var parts := Split(s[1..]);
      assert s == [s[0]] + s[1..];
      if s[0] == SLASH {
        assert Split(s)[1..] == parts;
      } else {
        assert Split(s)[1..] == parts[1..];
      }
    }
  }

  lemma {:induction false} JoinConcat(a: seq<Bytes>, b: seq<Bytes>)
    requires |a| > 0 && |b| > 0
    ensures Join(a + b) == Join(a) + [SLASH] + Join(b)
  {
    if |a| == 1 {
      assert (a + b)[1..] == b;
    } else {
      JoinConcat(a[1..], b);
      assert (a + b)[1..] == a[1..] + b;
    }
  }

  lemma {:induction false} TrimKeepsClean(s: Bytes)
    requires s != [] && s[0] == SLASH && NUL !in s && BACKSLASH !in s && NoDotSegment(s)
    ensures TrimSlashes(s) != [] ==> Clean(TrimSlashes(s))
    ensures AuthorityLike(TrimSlashes(s)) <==> AuthorityLike(s)
    decreases |s|
  {
    var t := s[..|s| - 1];
    if s[|s| - 1] == SLASH && t != [] {
      assert s == t + [SLASH] + [];
      SplitAtSlash(t, []);
      forall i | 0 < i < |Split(t)| ensures !DotSegment(Split(t)[i]) {
        assert Split(s)[i] == Split(t)[i];
      }
      TrimKeepsClean(t);
    }
  }

  lemma RootIsClean()
    ensures Clean([SLASH]) && Escape([SLASH]) == [SLASH]
  {
    assert Split([SLASH]) == [[], []];
  }

  lemma EscapeOfNonEmpty(d: Bytes)
    ensures d != [] ==> Escape(d) != []
  {
  }

  /** The canonical form is the encoding of a clean path, and it decodes to that path. */
  lemma NormaliseGivesCleanPath(raw: Bytes) returns (d: Bytes)
    requires Normalise(raw).Some?
    ensures Clean(d) && Normalise(raw).value == Escape(d) && Unescape(Normalise(raw).value) == Some(d)
    ensures raw == [] ==> d == [SLASH]
    ensures raw != [] ==>
              var ref := Parse(raw, true);
              && ref.Some? && d == OrRoot(TrimSlashes(ref.value.path))
              && (AuthorityLike(d) <==> AuthorityLike(ref.value.path))
  {
    d := [SLASH];
    RootIsClean();
    if raw != [] {
      var path := Parse(raw, true).value.path;
      var decoded := OrRoot(path);
      if decoded != [SLASH] {
        TrimKeepsClean(decoded);
        EscapeOfNonEmpty(TrimSlashes(decoded));
        d := OrRoot(TrimSlashes(decoded));
      }
    }
    UnescapeInvertsEscape(d);
  }

  // ------------------------------------------------------------------ normalising again

  lemma FindsNothing(s: Bytes, c: byte)
    requires c !in s
    ensures Find(s, c) == |s|
  {
  }

  lemma CleanEncodingBytes(d: Bytes)
    requires Clean(d)
    ensures !HasControl(Escape(d))
    ensures HASH !in Escape(d) && QUESTION !in Escape(d) && NUL !in Escape(d) && BACKSLASH !in Escape(d)
    ensures Starts(Escape(d), [SLASH])
  {
    forall c | c in Escape(d) ensures !Control(c) {
      EscapedBytes(d, c);
    }
    EscapedBytes(d, HASH);
    EscapedBytes(d, QUESTION);
    EscapedBytes(d, NUL);
    EscapedBytes(d, BACKSLASH);
    assert Escape(d)[0] == SLASH;
  }

  /** The first three bytes of an encoding are slashes exactly where the path has slashes. */
  lemma LeadingSlashes(d: Bytes)
    requires d != [] && d[0] == SLASH
    ensures Starts(Escape(d), [SLASH, SLASH]) <==> Starts(d, [SLASH, SLASH])
    ensures Starts(Escape(d), [SLASH, SLASH, SLASH]) <==> Starts(d, [SLASH, SLASH, SLASH])
  {
    EncodedSlashPrefix(d);
    EncodedSlashPrefix(d[1..]);
    if |d| > 1 && d[1] == SLASH {
      EncodedSlashPrefix(d[2..]);
      assert d[1..][1..] == d[2..];
    }
  }

  lemma EncodedSlashPrefix(d: Bytes)
    ensures d != [] && d[0] == SLASH ==> Escape(d) == [SLASH] + Escape(d[1..])
    ensures (Escape(d) != [] && Escape(d)[0] == SLASH) <==> (d != [] && d[0] == SLASH)
  {
  }

  lemma ParseOfCanonical(d: Bytes, authorityOk: bool)
    requires Clean(d)
    ensures !AuthorityLike(d) ==> Parse(Escape(d), authorityOk) == Some(Ref([], [], [], d, [], [], []))
    ensures AuthorityLike(d) && Parse(Escape(d), authorityOk).Some? ==>
              Parse(Escape(d), authorityOk).value.authority != []
  {
    var c := Escape(d);
    CleanEncodingBytes(d);
    FindsNothing(c, HASH);
    FindsNothing(c, QUESTION);
    assert c[..|c|] == c;
    assert SchemeOf(c, 0) == NoScheme;
    LeadingSlashes(d);
    UnescapeInvertsEscape(d);
    assert Starts(d, [SLASH, SLASH]) && !Starts(d, [SLASH, SLASH, SLASH]) <==> AuthorityLike(d);
  }

  /** A canonical path is a fixed point, except that one with an authority-like beginning is refused. */
  lemma NormaliseOfCanonical(d: Bytes)
    requires Clean(d)
    ensures Normalise(Escape(d)) == if AuthorityLike(d) then None else Some(Escape(d))
  {
    CleanEncodingBytes(d);
    ParseOfCanonical(d, true);
    if !AuthorityLike(d) {
      EscapeHasNoEncodedSeparator(d);
      assert TrimSlashes(d) == if d == [SLASH] then [] else d;
    }
  }

  /** Normalisation can be repeated exactly when the path it reads does not decode to two slashes and
      something else. */
  lemma NormaliseTwice(raw: Bytes)
    requires raw != [] && Normalise(raw).Some?
    ensures Parse(raw, true).Some?
    ensures Normalise(Normalise(raw).value) ==
              if AuthorityLike(Parse(raw, true).value.path) then None else Normalise(raw)
  {
    var d := NormaliseGivesCleanPath(raw);
    NormaliseOfCanonical(d);
  }

  // ------------------------------------------------------------------ the check for encoded slashes

  /** The check for an encoded slash looks at the escaped path, so it only sees one that was written in
      an otherwise valid encoding. */
  lemma EncodedSlashIsSeenOnlyInValidEncoding(raw: Bytes, path: Bytes)
    requires Unescape(raw) == Some(path)
    ensures HasEncodedSlash(EscapedPath(path, if Escape(path) == raw then [] else raw)) <==>
            (ValidEncoded(raw) && HasEncodedSlash(raw))
  {
    EscapeHasNoEncodedSeparator(path);
  }

  /** A reference without an encoded slash never reads as an authority-like path. */
  lemma AuthorityLikeNeedsEncodedSlash(raw: Bytes, authorityOk: bool)
    requires Parse(raw, authorityOk).Some? && Plain(Parse(raw, authorityOk).value)
    requires AuthorityLike(Parse(raw, authorityOk).value.path)
    ensures HasEncodedSlash(raw)
  {
    var u := raw[..Find(raw, HASH)];
    var ref := Parse(raw, authorityOk).value;
    assert u != [STAR];
    assert SchemeOf(u, 0).NoScheme? by {
      if SchemeOf(u, 0).SchemeUpTo? {
        SchemeIsNotEmpty(u, 0);
        assert false;
      }
    }
    var rest := CutQuery(u).0;
    assert Unescape(rest) == Some(ref.path) && !AuthorityLike(rest);
    var i := DecodedSlashes(rest, ref.path);
    assert TripletAt(raw, i, 50, 102, 70);
  }

  lemma {:induction false} SchemeIsNotEmpty(s: Bytes, i: nat)
    requires i <= |s|
    ensures SchemeOf(s, i).SchemeUpTo? ==> 0 < SchemeOf(s, i).colon < |s|
    decreases |s| - i
  {
    if i < |s| {
      SchemeIsNotEmpty(s, i + 1);
    }
  }

  /** A decoded slash comes from a slash or from an encoded one. */
  lemma DecodedSlash(raw: Bytes, path: Bytes)
    requires Unescape(raw) == Some(path) && path != [] && path[0] == SLASH
    ensures raw != []
    ensures raw[0] == PERCENT ==> |raw| > 2 && TripletAt(raw, 0, 50, 102, 70)
    ensures raw[0] != PERCENT ==> raw[0] == SLASH && Unescape(raw[1..]) == Some(path[1..])
  {
  }

  lemma DecodedSlashes(raw: Bytes, path: Bytes) returns (i: nat)
    requires Unescape(raw) == Some(path) && AuthorityLike(path) && !AuthorityLike(raw)
    ensures i + 2 < |raw| && TripletAt(raw, i, 50, 102, 70)
  {
    DecodedSlash(raw, path);
    i := 0;
    if raw[0] != PERCENT {
      DecodedSlash(raw[1..], path[1..]);
      i := 1;
      var after := raw[1..][1..];
      assert Unescape(after) == Some(path[1..][1..]) || raw[1] == PERCENT;
      assert after == raw[2..] && path[1..][1..] == path[2..];
    }
  }

  /** Without an encoded slash in the text, normalising is idempotent. */
  lemma IdempotentWithoutEncodedSlash(raw: Bytes)
    requires !HasEncodedSlash(raw) && Normalise(raw).Some?
    ensures Normalise(Normalise(raw).value) == Normalise(raw)
  {
    if raw != [] {
      NormaliseTwice(raw);
      if AuthorityLike(Parse(raw, true).value.path) {
        AuthorityLikeNeedsEncodedSlash(raw, true);
      }
    } else {
      RootIsClean();
      NormaliseOfCanonical([SLASH]);
    }
  }

  lemma {:induction false} LiteralBytes(s: Bytes)
    requires forall c :: c in s ==> !ShouldEscape(c)
    ensures Unescape(s) == Some(s) && Escape(s) == s
  {
    if s != [] {
      LiteralBytes(s[1..]);
      assert s[0] in s && s == [s[0]] + s[1..];
    }
  }

  lemma ExampleDecodes(raw: Bytes, d: Bytes)
    requires raw == [SLASH, PERCENT, 50, 70, 120, 32, 121] && d == [SLASH, SLASH, 120, 32, 121]
    ensures Unescape(raw) == Some(d)
  {
    LiteralBytes([121]);
    var space: Bytes := [32, 121];
    var tail := raw[4..];
    assert space == [32] + [121] && space[1..] == [121];
    assert tail == [120] + space && tail[1..] == space;
    assert Unescape(tail) == Some(tail);
    var escaped := raw[1..];
    assert escaped[3..] == tail && escaped[1] == 50 && escaped[2] == 70;
    assert Unescape(escaped) == Some([SLASH] + tail);
    assert raw == [SLASH] + escaped && d == [SLASH] + ([SLASH] + tail);
  }

  lemma ExampleEncodes(d: Bytes)
    requires d == [SLASH, SLASH, 120, 32, 121]
    ensures Escape(d) == [SLASH, SLASH, 120, PERCENT, 50, 48, 121]
  {
    var head: Bytes := [SLASH, SLASH, 120];
    LiteralBytes(head);
    LiteralBytes([121]);
    EscapeConcat(head, [32] + [121]);
    assert EscapeByte(32) == [PERCENT, 50, 48] && ([32] + [121])[1..] == [121];
    assert d == head + ([32] + [121]);
    assert Escape(d) == head + ([PERCENT, 50, 48] + [121]);
  }

  lemma ExampleIsClean(d: Bytes)
    requires d == [SLASH, SLASH, 120, 32, 121]
    ensures Clean(d)
  {
    assert d == [] + [SLASH] + ([] + [SLASH] + [120, 32, 121]);
    SplitAtSlash([], [] + [SLASH] + [120, 32, 121]);
    SplitAtSlash([], [120, 32, 121]);
  }

  lemma ExampleReads(raw: Bytes, d: Bytes)
    requires raw == [SLASH, PERCENT, 50, 70, 120, 32, 121] && d == [SLASH, SLASH, 120, 32, 121]
    ensures Parse(raw, true) == Some(Ref([], [], [], d, raw, [], []))
    ensures Escape(d) == [SLASH, SLASH, 120, PERCENT, 50, 48, 121] && Clean(d)
  {
    ExampleDecodes(raw, d);
    ExampleEncodes(d);
    ExampleIsClean(d);
    FindsNothing(raw, HASH);
    FindsNothing(raw, QUESTION);
    assert raw[..|raw|] == raw;
    assert SchemeOf(raw, 0) == NoScheme;
  }

  /** A clean path in an encoding that is not valid is accepted without looking for encoded slashes. */
  lemma InvalidEncodingIsAccepted(raw: Bytes, d: Bytes)
    requires raw != [] && NUL !in raw && BACKSLASH !in raw
    requires Parse(raw, true) == Some(Ref([], [], [], d, raw, [], []))
    requires Clean(d) && d != [SLASH] && !ValidEncoded(raw)
    ensures Normalise(raw) == Some(Escape(d))
  {
    EscapeHasNoEncodedSeparator(d);
    assert TrimSlashes(d) == d;
  }

  /** It is not idempotent in general: "/%2Fx y" becomes "//x%20y", which is then refused. */
  lemma NormalisingTwiceCanFail()
    ensures Normalise([SLASH, PERCENT, 50, 70, 120, 32, 121]) == Some([SLASH, SLASH, 120, PERCENT, 50, 48, 121])
    ensures Normalise([SLASH, SLASH, 120, PERCENT, 50, 48, 121]) == None
  {
    var raw, d: Bytes := [SLASH, PERCENT, 50, 70, 120, 32, 121], [SLASH, SLASH, 120, 32, 121];
    ExampleReads(raw, d);
    assert !ValidEncoded(raw) by {
      assert raw[5] in raw && !ValidEncodedByte(raw[5]);
    }
    InvalidEncodingIsAccepted(raw, d);
    NormaliseOfCanonical(d);
  }
}
