/** The shape of a `vless://` share link and a reader for it. Both scripts
    build their links with template strings; this module is the structure
    those strings have:
    `vless://USER@HOST:PORT?K1=V1&...&Kn=Vn#FRAGMENT`. */
module VlessLink {
  import opened Basics
  import UriComponent

  datatype Param = Param(key: string, value: string)

  datatype Link = Link(user: string, host: string, port: string, query: seq<Param>, fragment: string)

  function JoinQuery(ps: seq<Param>): string {
    if ps == [] then ""
    else if |ps| == 1 then ps[0].key + "=" + ps[0].value
    else ps[0].key + "=" + ps[0].value + "&" + JoinQuery(ps[1..])
  }

  function Render(l: Link): string {
    "vless://" + (l.user + "@" + (l.host + ":" + (l.port + "?" + (JoinQuery(l.query) + "#" + l.fragment))))
  }

  /** The text before and after the first `c`, or `None` if there is none. */
  function SplitFirst(s: string, c: char): (r: Option<(string, string)>)
    ensures r.Some? ==> |r.value.0| + 1 + |r.value.1| == |s|
  {
    if s == [] then None
    else if s[0] == c then Some(([], s[1..]))
    else
      match SplitFirst(s[1..], c)
      case None => None
      case Some((a, b)) => Some(([s[0]] + a, b))
  }

  /** `s.split(c)`. */
  function SplitAll(s: string, c: char): (r: seq<string>)
    ensures |r| >= 1
    decreases |s|
  {
    match SplitFirst(s, c)
    case None => [s]
    case Some((a, b)) => [a] + SplitAll(b, c)
  }

  function ParseParam(s: string): Option<Param> {
    match SplitFirst(s, '=')
    case None => None
    case Some((k, v)) => Some(Param(k, v))
  }

  function ParseParams(parts: seq<string>): Option<seq<Param>> {
    if parts == [] then Some([])
    else
      match ParseParam(parts[0])
      case None => None
      case Some(p) =>
        match ParseParams(parts[1..])
        case None => None
        case Some(ps) => Some([p] + ps)
  }

  /** Reads a link: the scheme, then the user up to the first `@`, the host
      up to the next `:`, the port up to `?`, the query up to `#`, and the
      rest as the fragment; the query is split on `&` and each parameter at
      its first `=`. */
  function Parse(s: string): Option<Link> {
    if !StartsWith(s, "vless://") then None
    else
      match SplitFirst(s[8..], '@')
      case None => None
      case Some((user, r1)) =>
        match SplitFirst(r1, ':')
        case None => None
        case Some((host, r2)) =>
          match SplitFirst(r2, '?')
          case None => None
          case Some((port, r3)) =>
            match SplitFirst(r3, '#')
            case None => None
            case Some((q, fragment)) =>
              match ParseParams(SplitAll(q, '&'))
              case None => None
              case Some(ps) => Some(Link(user, host, port, ps, fragment))
  }

  /** The value of the first parameter named `key`. */
  function QueryValue(ps: seq<Param>, key: string): Option<string> {
    if ps == [] then None
    else if ps[0].key == key then Some(ps[0].value)
    else QueryValue(ps[1..], key)
  }

  predicate ParamIsPlain(p: Param) {
    Free(p.key, '=') && Free(p.key, '&') && Free(p.key, '#') && Free(p.value, '&') && Free(p.value, '#')
  }

  /** What a link must avoid for its fields to be read back: each field is
      free of the separator that ends it. */
  predicate WellFormed(l: Link) {
    && Free(l.user, '@')
    && Free(l.host, ':')
    && Free(l.port, '?')
    && |l.query| >= 1
    && forall i :: 0 <= i < |l.query| ==> ParamIsPlain(l.query[i])
  }

  lemma {:induction false} SplitFirstOf(a: string, c: char, b: string)
    requires Free(a, c)
    ensures SplitFirst(a + [c] + b, c) == Some((a, b))
  {
    var s := a + [c] + b;
    if a == [] {
      assert s == [c] + b;
      assert s[1..] == b;
    } else {
      assert s[0] == a[0];
      assert s[1..] == a[1..] + [c] + b;
      SplitFirstOf(a[1..], c, b);
      assert [a[0]] + a[1..] == a;
    }
  }

  lemma {:induction false} SplitFirstNone(s: string, c: char)
    requires Free(s, c)
    ensures SplitFirst(s, c) == None
  {
    if s != [] {
      SplitFirstNone(s[1..], c);
    }
  }

  lemma FreeAppend(a: string, b: string, c: char)
    requires Free(a, c) && Free(b, c)
    ensures Free(a + b, c)
  {
    assert forall i :: 0 <= i < |a + b| ==> (a + b)[i] == if i < |a| then a[i] else b[i - |a|];
  }

  lemma {:induction false} JoinQueryHashFree(ps: seq<Param>)
    requires forall i :: 0 <= i < |ps| ==> ParamIsPlain(ps[i])
    ensures Free(JoinQuery(ps), '#')
  {
    if ps != [] {
      var p := ps[0];
      FreeAppend(p.key, "=", '#');
      FreeAppend(p.key + "=", p.value, '#');
      if |ps| > 1 {
        JoinQueryHashFree(ps[1..]);
        FreeAppend(p.key + "=" + p.value, "&", '#');
        FreeAppend(p.key + "=" + p.value + "&", JoinQuery(ps[1..]), '#');
      }
    }
  }

  lemma ParseParamOf(p: Param)
    requires ParamIsPlain(p)
    ensures ParseParam(p.key + "=" + p.value) == Some(p)
  {
    SplitFirstOf(p.key, '=', p.value);
  }

  lemma {:induction false} ParseJoinQuery(ps: seq<Param>)
    requires |ps| >= 1
    requires forall i :: 0 <= i < |ps| ==> ParamIsPlain(ps[i])
    ensures ParseParams(SplitAll(JoinQuery(ps), '&')) == Some(ps)
  {
    var p := ps[0];
    var head := p.key + "=" + p.value;
    FreeAppend(p.key, "=", '&');
    FreeAppend(p.key + "=", p.value, '&');
    ParseParamOf(p);
    if |ps| == 1 {
      SplitFirstNone(head, '&');
      assert SplitAll(JoinQuery(ps), '&') == [head];
      assert ParseParams([head]) == Some([p] + []);
      assert [p] + [] == ps;
    } else {
      SplitFirstOf(head, '&', JoinQuery(ps[1..]));
      assert SplitAll(JoinQuery(ps), '&') == [head] + SplitAll(JoinQuery(ps[1..]), '&');
      ParseJoinQuery(ps[1..]);
      var parts := [head] + SplitAll(JoinQuery(ps[1..]), '&');
      assert parts[0] == head && parts[1..] == SplitAll(JoinQuery(ps[1..]), '&');
      assert [p] + ps[1..] == ps;
    }
  }

  /** The reader inverts the renderer on every well-formed link. */
  lemma ParseRender(l: Link)
    requires WellFormed(l)
    ensures Parse(Render(l)) == Some(l)
  {
    var q := JoinQuery(l.query);
    var r3 := q + "#" + l.fragment;
    var r2 := l.port + "?" + r3;
    var r1 := l.host + ":" + r2;
    var r0 := l.user + "@" + r1;
    var s := Render(l);
    assert s == "vless://" + r0;
    assert StartsWith(s, "vless://") && s[8..] == r0;
    SplitFirstOf(l.user, '@', r1);
    SplitFirstOf(l.host, ':', r2);
    SplitFirstOf(l.port, '?', r3);
    JoinQueryHashFree(l.query);
    SplitFirstOf(q, '#', l.fragment);
    ParseJoinQuery(l.query);
  }

  // ----- the parameters both scripts put in their links -----

  lemma FixedParamsPlain()
    ensures ParamIsPlain(Param("encryption", "none")) && ParamIsPlain(Param("security", "tls")) && ParamIsPlain(Param("type", "ws"))
  {
    LowerCaseParamPlain("encryption", "none");
    LowerCaseParamPlain("security", "tls");
    LowerCaseParamPlain("type", "ws");
  }

  lemma LowerCaseParamPlain(key: string, value: string)
    requires forall i :: 0 <= i < |key| ==> 'a' <= key[i] <= 'z'
    requires forall i :: 0 <= i < |value| ==> 'a' <= value[i] <= 'z'
    ensures ParamIsPlain(Param(key, value))
  {
  }

  lemma HostParamPlain(host: string)
    requires Free(host, '&') && Free(host, '#')
    ensures ParamIsPlain(Param("host", host))
  {
  }

  lemma PathParamPlain(wsPath: string)
    ensures ParamIsPlain(Param("path", UriComponent.Encode(wsPath)))
  {
    UriComponent.EncodeAvoidsSeparators(wsPath);
  }

  lemma SniParamPlain(domain: string)
    requires Free(domain, '&') && Free(domain, '#')
    ensures ParamIsPlain(Param("sni", domain))
  {
  }
}
