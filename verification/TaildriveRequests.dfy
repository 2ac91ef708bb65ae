/**
 What the Taildrive client does with canonical paths (native/go_bridge/taildrive.go): the request
 URL, the path of a WebDAV href, the name of a direct child and the checks before a mutation.
 */
module TaildriveRequests {
  import opened Wrappers
  import opened Percent
  import opened TaildrivePath

  datatype Url = Url(path: Bytes, rawPath: Bytes)
  datatype Operation = Mkdir | Delete | Rename | Move | Unknown

  // ------------------------------------------------------------------ operations

  function RequestUrl(remotePath: Bytes): Option<Url> {
    match Normalise(remotePath)
    case None => None
    case Some(normalized) =>
      match Unescape(normalized)
      case None => None
      case Some(decoded) => Some(Url(decoded, normalized))
  }

  predicate HasUser(authority: Bytes) {
    64 in authority
  }

  function HttpScheme(): Bytes {
    [104, 116, 116, 112]
  }

  /** The path of an href from which surrounding space has been trimmed. */
  function HrefPath(href: Bytes, authorityOk: bool): Option<Bytes> {
    match Parse(href, authorityOk)
    case None => None
    case Some(ref) =>
      if HasUser(ref.authority) || ref.query != [] || ref.fragment != [] then None
      else if ref.scheme != [] && ref.scheme != HttpScheme() && ref.scheme != HttpScheme() + [115] then None
      else if ref.path == [] then Some([SLASH])
      else Normalise(EscapedPath(ref.path, ref.rawPath))
  }

  predicate LegalName(name: Bytes) {
    name != [] && !DotSegment(name) && SLASH !in name && BACKSLASH !in name && NUL !in name
  }

  function Prefix(parent: Bytes): Bytes {
    if parent == [SLASH] then parent else parent + [SLASH]
  }

  function ChildName(rawParent: Bytes, rawChild: Bytes): Option<Bytes> {
    match Normalise(rawParent)
    case None => None
    case Some(parent) =>
      match Normalise(rawChild)
      case None => None
      case Some(child) => if parent == child then None else NameBelow(Prefix(parent), child)
  }

  function NameBelow(prefix: Bytes, child: Bytes): Option<Bytes> {
    if !Starts(child, prefix) then None
    else
      var remaining := child[|prefix|..];
      if remaining == [] || SLASH in remaining then None
      else
        match Unescape(remaining)
        case None => None
        case Some(name) => if LegalName(name) then Some(name) else None
  }

  /** The paths a mutation works on, or nothing when the request is invalid. */
  function CheckMutation(operation: Operation, rawPath: Bytes, rawNewPath: Bytes): Option<(Bytes, Bytes)> {
    match Normalise(rawPath)
    case None => None
    case Some(path) =>
      if path == [SLASH] then None
      else if operation.Rename? || operation.Move? then
        match Normalise(rawNewPath)
        case None => None
        case Some(newPath) =>
          if newPath == [SLASH] || Starts(newPath, path + [SLASH]) then None
          else if newPath == [] || newPath == path then None
          else Some((path, newPath))
      else if operation.Unknown? then None
      else Some((path, rawNewPath))
  }

  // ------------------------------------------------------------------ the request carries the canonical path

  /** The request line is written from the escaped path of the URL, and that is the canonical path. */
  lemma RequestCarriesCanonicalPath(remotePath: Bytes)
    ensures RequestUrl(remotePath).Some? <==> Normalise(remotePath).Some?
    ensures RequestUrl(remotePath).Some? ==>
              var url := RequestUrl(remotePath).value;
              Clean(url.path) && Some(EscapedPath(url.path, url.rawPath)) == Normalise(remotePath)
  {
    if Normalise(remotePath).Some? {
      var d := NormaliseGivesCleanPath(remotePath);
      EscapeIsValidEncoded(d);
    }
  }

  // ------------------------------------------------------------------ hrefs

  /** Hrefs lead to canonical paths only. */
  lemma HrefIsCanonical(href: Bytes, authorityOk: bool) returns (d: Bytes)
    requires HrefPath(href, authorityOk).Some?
    ensures Clean(d) && HrefPath(href, authorityOk) == Some(Escape(d))
  {
    var ref := Parse(href, authorityOk).value;
    if ref.path == [] {
      RootIsClean();
      d := [SLASH];
    } else {
      d := NormaliseGivesCleanPath(EscapedPath(ref.path, ref.rawPath));
    }
  }

  /** A server that answers with a canonical path, alone or behind its own address, names that path. */
  lemma HrefOfCanonicalPath(c: Bytes)
    requires Normalise(c) == Some(c)
    ensures HrefPath(c, true) == Some(c)
  {
    var d := NormaliseGivesCleanPath(c);
    NormaliseOfCanonical(d);
    ParseOfCanonical(d, true);
  }

  predicate PlainHost(host: Bytes) {
    host != [] && forall c :: c in host ==> !Control(c) && c != SLASH && c != QUESTION && c != HASH && c != 64
  }

  lemma FindBehind(a: Bytes, b: Bytes, c: byte)
    requires c !in a
    ensures Find(a + b, c) == |a| + Find(b, c)
  {
    if a == [] {
      assert a + b == b;
    } else {
      assert (a + b)[1..] == a[1..] + b;
      FindBehind(a[1..], b, c);
    }
  }

  lemma ParseBehindHost(host: Bytes, d: Bytes)
    requires PlainHost(host) && Clean(d)
    ensures ParseAfterScheme(HttpScheme(), [SLASH, SLASH] + host + Escape(d), [], true)
              == Some(Ref(HttpScheme(), [], host, d, [], [], []))
  {
    var c := Escape(d);
    var u := [SLASH, SLASH] + host + c;
    CleanEncodingBytes(d);
    assert QUESTION !in u;
    FindsNothing(u, QUESTION);
    assert u[..|u|] == u && u[2..] == host + c;
    FindBehind(host, c, SLASH);
    assert Find(c, SLASH) == 0;
    var end := 2 + |host|;
    assert u[2..end] == host && u[end..] == c;
    UnescapeInvertsEscape(d);
  }

  lemma SchemeOfHttp(u: Bytes)
    requires Starts(u, HttpScheme() + [COLON])
    ensures SchemeOf(u, 0) == SchemeUpTo(4) && Lower(u[..4]) == HttpScheme()
  {
    var text := HttpScheme() + [COLON];
    assert u[0] == text[0] && u[1] == text[1] && u[2] == text[2] && u[3] == text[3] && u[4] == text[4];
    assert SchemeOf(u, 4) == SchemeUpTo(4);
    assert SchemeOf(u, 3) == SchemeUpTo(4);
    assert SchemeOf(u, 2) == SchemeUpTo(4);
    var s := u[..4];
    assert s == HttpScheme() && Lower(s[1..][1..][1..][1..]) == [];
    assert Lower(s[1..][1..][1..]) == [112] && Lower(s[1..][1..]) == [116, 112];
  }

  lemma ParseOfHref(host: Bytes, d: Bytes)
    requires PlainHost(host) && Clean(d)
    ensures Parse(HttpScheme() + [COLON, SLASH, SLASH] + host + Escape(d), true)
              == Some(Ref(HttpScheme(), [], host, d, [], [], []))
  {
    var href := HttpScheme() + [COLON, SLASH, SLASH] + host + Escape(d);
    CleanEncodingBytes(d);
    assert HASH !in href;
    assert !HasControl(href);
    FindsNothing(href, HASH);
    assert href[..|href|] == href;
    SchemeOfHttp(href);
    assert href[5..] == [SLASH, SLASH] + host + Escape(d);
    ParseBehindHost(host, d);
  }

  lemma HrefBehindHost(host: Bytes, c: Bytes)
    requires PlainHost(host) && Normalise(c) == Some(c)
    ensures HrefPath(HttpScheme() + [COLON, SLASH, SLASH] + host + c, true) == Some(c)
  {
    var d := NormaliseGivesCleanPath(c);
    ParseOfHref(host, d);
  }

  // ------------------------------------------------------------------ direct children

  /** A name is extracted exactly when the child's canonical path is the parent's with one legal,
      encoded segment added, and then it is that segment. */
  lemma ChildIsOneSegmentBelow(rawParent: Bytes, rawChild: Bytes, name: Bytes)
    ensures ChildName(rawParent, rawChild) == Some(name) <==>
            && Normalise(rawParent).Some?
            && LegalName(name)
            && Normalise(rawChild) == Some(Prefix(Normalise(rawParent).value) + Escape(name))
  {
    if Normalise(rawParent).Some? && Normalise(rawChild).Some? {
      var parent, child := Normalise(rawParent).value, Normalise(rawChild).value;
      var d := NormaliseGivesCleanPath(rawChild);
      PrefixEndsInSlash(parent);
      NameBelowIsExact(Prefix(parent), d, name);
      EncodedName(name);
      assert |Prefix(parent) + Escape(name)| > |parent| || !LegalName(name);
    }
  }

  lemma NameBelowIsExact(prefix: Bytes, d: Bytes, name: Bytes)
    requires prefix != [] && prefix[|prefix| - 1] == SLASH
    ensures NameBelow(prefix, Escape(d)) == Some(name) <==> LegalName(name) && Escape(d) == prefix + Escape(name)
  {
    EncodedName(name);
    assert (prefix + Escape(name))[|prefix|..] == Escape(name);
    if NameBelow(prefix, Escape(d)) == Some(name) {
      var remaining := Escape(d)[|prefix|..];
      assert Escape(d) == prefix + remaining;
      var k := CutAtSlash(d, prefix, remaining);
      UnescapeInvertsEscape(d[k..]);
    }
  }

  lemma EncodedName(name: Bytes)
    ensures Unescape(Escape(name)) == Some(name)
    ensures LegalName(name) ==> Escape(name) != [] && SLASH !in Escape(name)
  {
    UnescapeInvertsEscape(name);
    EscapedBytes(name, SLASH);
    EscapeOfNonEmpty(name);
  }

  lemma PrefixEndsInSlash(parent: Bytes)
    ensures Prefix(parent) != [] && Prefix(parent)[|Prefix(parent)| - 1] == SLASH
  {
  }

  lemma ChildOfCleanIsClean(d: Bytes, name: Bytes)
    requires Clean(d) && LegalName(name)
    ensures Clean(Prefix(d) + name)
    ensures AuthorityLike(Prefix(d) + name) ==> AuthorityLike(d)
  {
    var child := Prefix(d) + name;
    SplitOfName(name);
    assert child[|child| - 1] == name[|name| - 1];
    if d == [SLASH] {
      assert child == [] + [SLASH] + name;
      SplitAtSlash([], name);
    } else {
      SplitAtSlash(d, name);
    }
    assert NoDotSegment(child);
  }

  lemma {:induction false} SplitOfName(name: Bytes)
    requires SLASH !in name
    ensures Split(name) == [name]
  {
    if name != [] {
      assert name == [name[0]] + name[1..];
      SplitOfName(name[1..]);
    }
  }

  lemma EscapedPrefix(d: Bytes, name: Bytes)
    requires Clean(d)
    ensures Escape(Prefix(d) + name) == Prefix(Escape(d)) + Escape(name)
  {
    RootIsClean();
    EscapeConcat(Prefix(d), name);
    EscapeConcat(d, [SLASH]);
    if d != [SLASH] && Escape(d) == Escape([SLASH]) {
      EscapeInjective(d, [SLASH]);
    }
  }

  /** Below a canonical parent, every legal name comes back from the path built for it. */
  lemma ChildNameRoundTrip(parent: Bytes, name: Bytes)
    requires Normalise(parent) == Some(parent) && LegalName(name)
    ensures ChildName(parent, Prefix(parent) + Escape(name)) == Some(name)
  {
    var d := NormaliseGivesCleanPath(parent);
    NormaliseOfCanonical(d);
    ChildOfCleanIsClean(d, name);
    EscapedPrefix(d, name);
    NormaliseOfCanonical(Prefix(d) + name);
    ChildIsOneSegmentBelow(parent, Prefix(parent) + Escape(name), name);
  }

  // ------------------------------------------------------------------ the move guard

  /** The decoded segments of a canonical path. */
  function Segments(canonical: Bytes): seq<Bytes> {
    match Unescape(canonical)
    case None => []
    case Some(d) => Split(d)
  }

  /** One path lies strictly below another exactly when its text continues the other's behind a slash. */
  lemma BelowIsSegmentPrefix(a: Bytes, b: Bytes)
    ensures Starts(b, a + [SLASH]) <==> (Split(a) <= Split(b) && Split(a) != Split(b))
  {
    if Starts(b, a + [SLASH]) {
      var rest := b[|a| + 1..];
      assert b == a + [SLASH] + rest;
      SplitAtSlash(a, rest);
      assert |Split(b)| > |Split(a)|;
    }
    if Split(a) <= Split(b) && Split(a) != Split(b) {
      var rest := Split(b)[|Split(a)|..];
      assert Split(b) == Split(a) + rest;
      JoinConcat(Split(a), rest);
      JoinUndoesSplit(a);
      JoinUndoesSplit(b);
      assert b == a + [SLASH] + Join(rest);
    }
  }

  lemma EncodedBelow(a: Bytes, b: Bytes)
    ensures Starts(Escape(b), Escape(a) + [SLASH]) <==> Starts(b, a + [SLASH])
  {
    EscapeConcat(a, [SLASH]);
    assert Escape([SLASH]) == [SLASH];
    if Starts(b, a + [SLASH]) {
      assert b == a + [SLASH] + b[|a| + 1..];
      EscapeConcat(a + [SLASH], b[|a| + 1..]);
    }
    var front := Escape(a) + [SLASH];
    if Starts(Escape(b), front) {
      assert Escape(b) == front + Escape(b)[|front|..];
      var k := CutAtSlash(b, front, Escape(b)[|front|..]);
      EscapeInjective(a + [SLASH], b[..k]);
    }
  }

  lemma SameSegments(a: Bytes, b: Bytes)
    ensures Split(a) == Split(b) <==> a == b
  {
    JoinUndoesSplit(a);
    JoinUndoesSplit(b);
  }

  /** A rename or move is refused exactly when a path is unusable or the root, or the source's segments
      begin the destination's: the destination is the source or lies inside it. */
  lemma MoveGuardIsExact(operation: Operation, source: Bytes, destination: Bytes)
    requires operation.Rename? || operation.Move?
    ensures
      var from, to := Normalise(source), Normalise(destination);
      CheckMutation(operation, source, destination) ==
      if from.None? || to.None? || from.value == [SLASH] || to.value == [SLASH] then None
      else if Segments(from.value) <= Segments(to.value) then None
      else Some((from.value, to.value))
  {
    if Normalise(source).Some? && Normalise(destination).Some? {
      var a := NormaliseGivesCleanPath(source);
      var b := NormaliseGivesCleanPath(destination);
      EncodedBelow(a, b);
      BelowIsSegmentPrefix(a, b);
      SameSegments(a, b);
      assert Segments(Normalise(source).value) == Split(a);
      assert Segments(Normalise(destination).value) == Split(b);
      assert a == b <==> Escape(a) == Escape(b) by {
        if Escape(a) == Escape(b) {
          EscapeInjective(a, b);
        }
      }
    }
  }

  /** The root is never made, deleted or moved, an unknown operation is never carried out, and every other
      path that normalises may be made or deleted. */
  lemma MutationGuardIsExact(operation: Operation, path: Bytes, newPath: Bytes)
    requires !operation.Rename? && !operation.Move?
    ensures CheckMutation(operation, path, newPath) ==
            if (operation == Mkdir || operation == Delete) && Normalise(path).Some? && Normalise(path).value != [SLASH]
            then Some((Normalise(path).value, newPath)) else None
  {
  }

  /** Whatever is mutated is a clean path other than the root. */
  lemma NoMutationOfTheRoot(operation: Operation, path: Bytes, newPath: Bytes) returns (d: Bytes)
    requires CheckMutation(operation, path, newPath).Some?
    ensures Clean(d) && d != [SLASH] && CheckMutation(operation, path, newPath).value.0 == Escape(d)
    ensures operation == Mkdir || operation == Delete || operation == Rename || operation == Move
  {
    d := NormaliseGivesCleanPath(path);
    RootIsClean();
  }
}
