/**
 Exactly which references the Taildrive client accepts, and as which path: normalising as a function of
 the text alone, and the path of an href as that of what it decodes to.
 */
module TaildriveReading {
  import opened Wrappers
  import opened Percent
  import opened TaildrivePath
  import opened TaildriveRequests

  /** The text before the first hash sign, and of that what comes before the first question mark. */
  function BeforeFragment(raw: Bytes): Bytes {
    raw[..Find(raw, HASH)]
  }

  function PathText(raw: Bytes): Bytes {
    var u := BeforeFragment(raw);
    u[..Find(u, QUESTION)]
  }

  /** Nothing follows the path but perhaps an empty query and an empty fragment. */
  predicate OnlyPath(raw: Bytes) {
    var p := PathText(raw);
    raw == p || raw == p + [QUESTION] || raw == p + [HASH] || raw == p + [QUESTION, HASH]
  }

  /** Text that reads as a path: no control byte, no backslash, no host, no colon in its first segment. */
  predicate ReadsAsPath(p: Bytes) {
    !HasControl(p) && BACKSLASH !in p && !AuthorityLike(p) && COLON !in p[..Find(p, SLASH)]
  }

  /** An absolute path without NUL, backslash or dot segment. */
  predicate Acceptable(path: Bytes) {
    path != [] && path[0] == SLASH && NUL !in path && BACKSLASH !in path && NoDotSegment(path)
  }

  /** The path that a text stands for, in its one canonical encoding without trailing slashes; a valid
      encoding must not hold an encoded slash or backslash. */
  function Meant(p: Bytes): Option<Bytes> {
    match Unescape(p)
    case None => None
    case Some(path) =>
      if !Acceptable(OrRoot(path)) then None
      else if ValidEncoded(p) && (HasEncodedSlash(p) || HasEncodedBackslash(p)) then None
      else Some(Escape(OrRoot(TrimSlashes(path))))
  }

  // ------------------------------------------------------------------ schemes

  lemma {:induction false} SchemeEndsInColon(s: Bytes, i: nat)
    requires i <= |s|
    ensures SchemeOf(s, i).SchemeUpTo? ==>
              && 0 < SchemeOf(s, i).colon && i <= SchemeOf(s, i).colon < |s| && s[SchemeOf(s, i).colon] == COLON
              && forall j :: i <= j < SchemeOf(s, i).colon ==> s[j] != SLASH && s[j] != QUESTION
    ensures SchemeOf(s, i).BadScheme? ==> i == 0 < |s| && s[0] == COLON
    decreases |s| - i
  {
    if i < |s| {
      SchemeEndsInColon(s, i + 1);
    }
  }

  lemma {:induction false} FindIsFirst(s: Bytes, c: byte, k: nat)
    requires k < |s| && s[k] == c && forall j :: 0 <= j < k ==> s[j] != c
    ensures Find(s, c) == k
  {
    if k > 0 {
      FindIsFirst(s[1..], c, k - 1);
    }
  }

  /** A colon in the first segment of the text, before any question mark. */
  lemma ColonInFirstSegment(u: Bytes, k: nat)
    requires k < |u| && u[k] == COLON && forall j :: 0 <= j < k ==> u[j] != SLASH && u[j] != QUESTION
    ensures var p := u[..Find(u, QUESTION)]; COLON in p[..Find(p, SLASH)]
  {
    var q := Find(u, QUESTION);
    assert q > k;
    var p := u[..q];
    var f := Find(p, SLASH);
    assert f > k;
    assert p[..f][k] == COLON;
  }

  lemma LowerKeepsLength(s: Bytes)
    ensures |Lower(s)| == |s|
  {
  }

  /** A reference with a scheme is refused, and its text has a colon in the first segment. */
  lemma SchemesAreRefused(raw: Bytes)
    requires raw != [] && !SchemeOf(BeforeFragment(raw), 0).NoScheme?
    ensures Normalise(raw) == None && !ReadsAsPath(PathText(raw))
  {
    var u := BeforeFragment(raw);
    SchemeEndsInColon(u, 0);
    if SchemeOf(u, 0).SchemeUpTo? {
      var colon := SchemeOf(u, 0).colon;
      ColonInFirstSegment(u, colon);
      LowerKeepsLength(u[..colon]);
      SchemeIsKept(Lower(u[..colon]), u[colon + 1..], Rest(raw, Find(raw, HASH)));
    } else {
      ColonInFirstSegment(u, 0);
    }
  }

  lemma SchemeIsKept(scheme: Bytes, u: Bytes, fragment: Bytes)
    requires scheme != []
    ensures var ref := ParseAfterScheme(scheme, u, fragment, true); ref.Some? ==> ref.value.scheme == scheme
  {
  }

  // ------------------------------------------------------------------ the rest

  /** Cutting at the first c leaves nothing behind it exactly when there is none or it comes last. */
  lemma CutLeavesNothing(s: Bytes, c: byte)
    ensures var head := s[..Find(s, c)];
            && s == (if Find(s, c) < |s| then head + [c] + Rest(s, Find(s, c)) else head)
            && (Rest(s, Find(s, c)) == [] <==> s == head || s == head + [c])
  {
    var k := Find(s, c);
    var head := s[..k];
    if k < |s| {
      assert s == head + [c] + s[k + 1..];
      assert |s| == |head| + 1 + |Rest(s, k)|;
    }
  }

  lemma OnlyPathMeans(raw: Bytes)
    ensures var u := BeforeFragment(raw);
            OnlyPath(raw) <==> Rest(raw, Find(raw, HASH)) == [] && Rest(u, Find(u, QUESTION)) == []
  {
    var u, p := BeforeFragment(raw), PathText(raw);
    CutLeavesNothing(raw, HASH);
    CutLeavesNothing(u, QUESTION);
    assert p + [QUESTION, HASH] == (p + [QUESTION]) + [HASH];
    if OnlyPath(raw) {
      OnlyPathEnds(raw, u, p);
    }
  }

  lemma OnlyPathEnds(raw: Bytes, u: Bytes, p: Bytes)
    requires u == BeforeFragment(raw) && p == PathText(raw) && OnlyPath(raw)
    ensures (raw == u || raw == u + [HASH]) && (u == p || u == p + [QUESTION])
  {
    var h, q := Find(raw, HASH), Find(u, QUESTION);
    assert |p| == q && |u| == h;
    assert h < |raw| ==> raw[h] == HASH;
    assert q < |u| ==> u[q] == QUESTION && raw[q] == QUESTION;
    assert raw == p + [QUESTION] ==> HASH !in u && raw[|p|] == QUESTION;
  }

  /** The parts of a reference without a scheme or authority. */
  predicate Reads(ref: Option<Ref>, p: Bytes, path: Bytes, query: Bytes, fragment: Bytes) {
    && ref.Some? && ref.value.scheme == [] && ref.value.rootless == [] && ref.value.authority == []
    && ref.value.path == path && ref.value.rawPath == (if Escape(path) == p then [] else p)
    && ref.value.query == query && ref.value.fragment == fragment
  }

  /** Without a scheme, the text before the query is a path, an authority, or refused for its colon. */
  lemma ReadingWithoutScheme(u: Bytes, fragment: Bytes)
    ensures var p, query := CutQuery(u).0, CutQuery(u).1;
            var ref := ParseAfterScheme([], u, fragment, true);
            if AuthorityLike(p) then ref.None? || ref.value.authority != []
            else if COLON in p[..Find(p, SLASH)] then ref.None?
            else if p == [SLASH, SLASH] then Reads(ref, [], [], query, fragment)
            else if Unescape(p).None? then ref.None?
            else Reads(ref, p, Unescape(p).value, query, fragment)
  {
    var p := CutQuery(u).0;
    assert Starts(p, [SLASH]) ==> p[0] == SLASH && Find(p, SLASH) == 0;
    assert Starts(p, [SLASH, SLASH]) ==> p[1] == SLASH;
    assert |p| > 2 && p[0] == SLASH && p[1] == SLASH && p[2] == SLASH ==> Starts(p, [SLASH, SLASH, SLASH]);
    if AuthorityLike(p) {
      assert Starts(p, [SLASH, SLASH]) && p[2..][0] != SLASH;
    } else if p == [SLASH, SLASH] {
      assert p[2..] == [] && p[2..2] == [];
    } else {
      assert !Starts(p, [SLASH, SLASH]) || Starts(p, [SLASH, SLASH, SLASH]);
    }
  }

  lemma {:induction false} SlashesAreDropped()
    ensures Meant([SLASH, SLASH]) == Some([SLASH])
  {
    var s: Bytes := [SLASH, SLASH];
    LiteralBytes(s);
    RootIsClean();
    assert s == [] + [SLASH] + [SLASH];
    SplitAtSlash([], [SLASH]);
    assert TrimSlashes([SLASH]) == [] && s[..1] == [SLASH];
    assert TrimSlashes(s) == TrimSlashes(s[..1]);
  }

  /** The check of the escaped path is one of the text, and only if that is a valid encoding. */
  lemma CheckOfEncodedSeparators(p: Bytes, path: Bytes)
    requires Unescape(p) == Some(path) && BACKSLASH !in path
    ensures var escaped := EscapedPath(path, if Escape(path) == p then [] else p);
            HasEncodedSlash(escaped) || HasEncodedBackslash(escaped)
            <==> ValidEncoded(p) && (HasEncodedSlash(p) || HasEncodedBackslash(p))
  {
    EscapeHasNoEncodedSeparator(path);
  }

  lemma PathTextIsPart(raw: Bytes)
    ensures forall c :: c in PathText(raw) ==> c in BeforeFragment(raw) && c in raw
    ensures OnlyPath(raw) ==> forall c :: c in raw ==> c in PathText(raw) || c == QUESTION || c == HASH
  {
  }

  lemma StarIsRefused(raw: Bytes)
    requires BeforeFragment(raw) == [STAR]
    ensures Normalise(raw) == None && PathText(raw) == [STAR] && Meant([STAR]) == None
  {
    LiteralStar();
    assert Find([STAR], QUESTION) == 1 by { FindsNothing([STAR], QUESTION); }
  }

  lemma LiteralStar()
    ensures Unescape([STAR]) == Some([STAR])
  {
    assert [STAR] == [STAR] + [];
  }

  lemma PathsAreMeant(raw: Bytes)
    requires raw != [] && SchemeOf(BeforeFragment(raw), 0).NoScheme?
    requires OnlyPath(raw) && ReadsAsPath(PathText(raw))
    ensures Normalise(raw) == Meant(PathText(raw))
  {
    var u, p := BeforeFragment(raw), PathText(raw);
    PathTextIsPart(raw);
    OnlyPathMeans(raw);
    if u == [STAR] {
      StarIsRefused(raw);
    } else {
      assert !HasControl(u);
      ReadingWithoutScheme(u, []);
      if p == [SLASH, SLASH] {
        SlashesAreDropped();
        RootIsClean();
      } else if Unescape(p).Some? {
        MeaningIsTheResult(raw, p, Unescape(p).value);
      }
    }
  }

  lemma WithoutTrailingSlashes(path: Bytes)
    ensures var decoded := OrRoot(path);
            OrRoot(Escape(if decoded == [SLASH] then decoded else TrimSlashes(decoded)))
              == Escape(OrRoot(TrimSlashes(path)))
  {
    RootIsClean();
    EscapeOfNonEmpty(TrimSlashes(path));
    assert path == [SLASH] ==> TrimSlashes(path) == TrimSlashes(path[..0]);
  }

  lemma MeaningIsTheResult(raw: Bytes, p: Bytes, path: Bytes)
    requires raw != [] && NUL !in raw && BACKSLASH !in raw
    requires Unescape(p) == Some(path) && Reads(Parse(raw, true), p, path, [], [])
    ensures Normalise(raw) == Meant(p)
  {
    var decoded := OrRoot(path);
    if !Acceptable(decoded) {
      assert Normalise(raw) == None && Meant(p) == None;
    } else {
      CheckOfEncodedSeparators(p, path);
      WithoutTrailingSlashes(path);
      var ref := Parse(raw, true).value;
      var escaped := EscapedPath(ref.path, ref.rawPath);
      assert HasEncodedSlash(escaped) || HasEncodedBackslash(escaped)
             <==> ValidEncoded(p) && (HasEncodedSlash(p) || HasEncodedBackslash(p));
    }
  }

  lemma OthersAreRefused(raw: Bytes)
    requires raw != [] && SchemeOf(BeforeFragment(raw), 0).NoScheme?
    requires !OnlyPath(raw) || !ReadsAsPath(PathText(raw))
    ensures Normalise(raw) == None
  {
    var u, p := BeforeFragment(raw), PathText(raw);
    PathTextIsPart(raw);
    OnlyPathMeans(raw);
    if u == [STAR] {
      StarIsRefused(raw);
    } else {
      ReadingWithoutScheme(u, Rest(raw, Find(raw, HASH)));
    }
  }

  /** Which references are accepted, and as what. */
  lemma NormaliseIsExact(raw: Bytes)
    requires raw != []
    ensures Normalise(raw) == if OnlyPath(raw) && ReadsAsPath(PathText(raw)) then Meant(PathText(raw)) else None
  {
    var u, p := BeforeFragment(raw), PathText(raw);
    OnlyPathMeans(raw);
    if !SchemeOf(u, 0).NoScheme? {
      SchemesAreRefused(raw);
    } else {
      ReadingWithoutScheme(u, Rest(raw, Find(raw, HASH)));
      if OnlyPath(raw) && ReadsAsPath(p) {
        PathsAreMeant(raw);
      } else {
        OthersAreRefused(raw);
      }
    }
  }

  // ------------------------------------------------------------------ what follows

  function Slashes(n: nat): Bytes {
    if n == 0 then [] else Slashes(n - 1) + [SLASH]
  }

  /** The encoding of an acceptable path reads as a path unless it begins like a host. */
  lemma EncodingReadsAsPath(path: Bytes)
    requires Acceptable(path) && !AuthorityLike(path)
    ensures ReadsAsPath(Escape(path)) && PathText(Escape(path)) == Escape(path)
    ensures Meant(Escape(path)) == Some(Escape(OrRoot(TrimSlashes(path))))
  {
    var c := Escape(path);
    forall b | b in c ensures !Control(b) {
      EscapedBytes(path, b);
    }
    EscapedBytes(path, HASH);
    EscapedBytes(path, QUESTION);
    EscapedBytes(path, BACKSLASH);
    FindsNothing(c, HASH);
    FindsNothing(c, QUESTION);
    assert c[..|c|] == c;
    LeadingSlashes(path);
    assert Starts(c, [SLASH]) && Find(c, SLASH) == 0;
    assert AuthorityLike(c) <==> Starts(c, [SLASH, SLASH]) && !Starts(c, [SLASH, SLASH, SLASH]) && |c| > 2;
    assert Starts(path, [SLASH, SLASH]) && !Starts(path, [SLASH, SLASH, SLASH]) ==> AuthorityLike(path) || |path| == 2;
    if path == [SLASH, SLASH] {
      LiteralBytes(path);
    }
    UnescapeInvertsEscape(path);
    EscapeHasNoEncodedSeparator(path);
  }

  lemma {:induction false} SlashesBehind(d: Bytes, n: nat)
    requires Clean(d)
    ensures Acceptable(d + Slashes(n)) && OrRoot(TrimSlashes(d + Slashes(n))) == d
    ensures AuthorityLike(d + Slashes(n)) ==> AuthorityLike(d)
  {
    if n == 0 {
      assert d + Slashes(0) == d;
      assert TrimSlashes(d) == if d == [SLASH] then [] else d;
    } else {
      SlashesBehind(d, n - 1);
      assert d + Slashes(n) == d + Slashes(n - 1) + [SLASH];
      OneMoreSlash(d + Slashes(n - 1));
    }
  }

  lemma OneMoreSlash(path: Bytes)
    requires Acceptable(path)
    ensures Acceptable(path + [SLASH]) && TrimSlashes(path + [SLASH]) == TrimSlashes(path)
    ensures AuthorityLike(path + [SLASH]) ==> AuthorityLike(path)
  {
    var longer := path + [SLASH];
    assert longer == path + [SLASH] + [];
    SplitAtSlash(path, []);
    assert Split(longer) == Split(path) + [[]];
    assert longer[..|longer| - 1] == path && longer[|longer| - 1] == SLASH;
  }

  /** "/docs/" is "/docs": whatever slashes follow a canonical path, they are dropped. */
  lemma TrailingSlashesAreDropped(d: Bytes, n: nat)
    requires Clean(d) && !AuthorityLike(d)
    ensures Normalise(Escape(d + Slashes(n))) == Some(Escape(d))
  {
    var path := d + Slashes(n);
    SlashesBehind(d, n);
    EncodingReadsAsPath(path);
    EscapeOfNonEmpty(path);
    NormaliseIsExact(Escape(path));
  }

  // ------------------------------------------------------------------ hrefs

  /** The href may belong to the share: it has no user, query or fragment, and a web scheme if any. */
  predicate ShareHref(ref: Ref) {
    && !HasUser(ref.authority) && ref.query == [] && ref.fragment == []
    && (ref.scheme == [] || ref.scheme == HttpScheme() || ref.scheme == HttpScheme() + [115])
  }

  /** The path of a parsed reference decodes from its escaped form, which holds no delimiter. */
  lemma EscapedPathDecodes(path: Bytes, rawPath: Bytes)
    ensures var e := EscapedPath(path, rawPath); Unescape(e) == Some(path) && PathText(e) == e
  {
    var e := EscapedPath(path, rawPath);
    LiteralStar();
    UnescapeInvertsEscape(path);
    EscapeIsValidEncoded(path);
    assert ValidEncoded([STAR]);
    assert ValidEncoded(e);
    assert HASH !in e && QUESTION !in e;
    FindsNothing(e, HASH);
    FindsNothing(e, QUESTION);
    assert e[..|e|] == e;
  }

  /** Which hrefs are accepted, and that they name the path they decode to, less its trailing slashes. */
  lemma HrefIsExact(href: Bytes, authorityOk: bool)
    ensures match Parse(href, authorityOk)
            case None => HrefPath(href, authorityOk) == None
            case Some(ref) =>
              var e := EscapedPath(ref.path, ref.rawPath);
              HrefPath(href, authorityOk) ==
              if ShareHref(ref) && (ref.path == [] || (ReadsAsPath(e) && Acceptable(ref.path)
                                                       && !HasEncodedSlash(e) && !HasEncodedBackslash(e)))
              then Some(Escape(OrRoot(TrimSlashes(ref.path)))) else None
  {
    if Parse(href, authorityOk).Some? {
      var ref := Parse(href, authorityOk).value;
      var e := EscapedPath(ref.path, ref.rawPath);
      EscapedPathDecodes(ref.path, ref.rawPath);
      RootIsClean();
      if ref.path != [] {
        assert e != [];
        EscapeIsValidEncoded(ref.path);
        assert ValidEncoded(e);
        NormaliseIsExact(e);
      }
    }
  }
}
