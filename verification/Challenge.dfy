/** The WWW-Authenticate: UMA challenge: BuildUMAChallenge (uma.go) against the
    parser of the demo client (examples/as-rs-demo/main.go). */
module Challenge {
  import opened Text

  const QUOTE := '"'

  /** The header value BuildUMAChallenge assembles. */
  function Header(asURL: string, ticket: string, scopes: string, realm: string): string {
    "UMA realm=\"" + realm + "\", as_uri=\"" + asURL + "\", ticket=\"" + ticket + "\""
    + if scopes != "" then ", scope=\"" + scopes + "\"" else ""
  }

  method BuildUMAChallenge(asURL: string, ticket: string, scopes: string, realm: string) returns (header: string)
    ensures header == Header(asURL, ticket, scopes, realm)
  {
    var sb := "";
    sb := sb + "UMA realm=\"";
    sb := sb + realm;
    sb := sb + "\", as_uri=\"";
    sb := sb + asURL;
    sb := sb + "\", ticket=\"";
    sb := sb + ticket;
    sb := sb + "\"";
    if scopes != "" {
      sb := sb + ", scope=\"";
      sb := sb + scopes;
      sb := sb + "\"";
    }
    return sb;
  }

  /** The format, with and without a scope. */
  lemma HeaderReads(asURL: string, ticket: string, scopes: string, realm: string)
    ensures Header(asURL, ticket, "", realm) == "UMA realm=\"" + realm + "\", as_uri=\"" + asURL + "\", ticket=\"" + ticket + "\""
    ensures scopes != "" ==> Header(asURL, ticket, scopes, realm) == Header(asURL, ticket, "", realm) + (", scope=\"" + scopes + "\"")
  {
    NoTail("UMA realm=\"" + realm + "\", as_uri=\"" + asURL + "\", ticket=\"" + ticket + "\"");
  }

  lemma NoTail(s: string)
    ensures s + "" == s
  {
  }

  function ParamValue(header: string, key: string): string {
    var needle := key + "=\"";
    var i := Index(header, needle);
    if i < 0 then "" else UpToQuote(header[i + |needle|..])
  }

  function UpToQuote(rest: string): string {
    var end := Index(rest, "\"");
    if end < 0 then "" else rest[..end]
  }

  datatype Parsed = Parsed(ticket: string, asURL: string, scope: string)

  function ParseChallenge(header: string): Parsed {
    if !HasPrefix(header, "UMA ") then Parsed("", "", "")
    else Parsed(ParamValue(header, "ticket"), ParamValue(header, "as_uri"), ParamValue(header, "scope"))
  }

  /** A header is a list of quote-free segments separated by quotes. Only the scope
      list may itself hold quotes; it contributes one segment per piece. */
  function Segments(asURL: string, ticket: string, scopes: string, realm: string): seq<string> {
    ["UMA realm=", realm, ", as_uri=", asURL, ", ticket=", ticket] + Tail(scopes)
  }

  function Tail(scopes: string): seq<string> {
    if scopes != "" then [", scope="] + Split(scopes, QUOTE) + [""] else [""]
  }

  ghost predicate QuoteFree(asURL: string, ticket: string, realm: string) {
    QUOTE !in asURL && QUOTE !in ticket && QUOTE !in realm
  }

  lemma {:induction false} JoinSnoc(segs: seq<string>, x: string)
    requires |segs| > 0
    ensures Join(segs + [x], QUOTE) == Join(segs, QUOTE) + "\"" + x
  {
    if |segs| > 1 {
      JoinSnoc(segs[1..], x);
      assert (segs + [x])[1..] == segs[1..] + [x];
    }
  }

  /** Writing a value after an opening quote, and a label with its quotes after a value. */
  lemma WriteValue(segs: seq<string>, value: string)
    requires |segs| > 0
    ensures Join(segs + [""], QUOTE) + value == Join(segs + [value], QUOTE)
  {
    JoinSnoc(segs, "");
    JoinSnoc(segs, value);
    Unpad(Join(segs, QUOTE) + "\"", value);
  }

  lemma Unpad(written: string, value: string)
    ensures written + "" + value == written + value
  {
  }

  lemma WriteLabel(segs: seq<string>, tag: string)
    requires |segs| > 0
    ensures Join(segs, QUOTE) + ("\"" + tag + "\"") == Join(segs + [tag] + [""], QUOTE)
  {
    JoinSnoc(segs, tag);
    JoinSnoc(segs + [tag], "");
    Regroup(Join(segs, QUOTE), tag);
  }

  lemma Regroup(written: string, tag: string)
    ensures written + ("\"" + tag + "\"") == written + "\"" + tag + "\"" + ""
  {
  }

  /** One more parameter after what is written. */
  lemma AddParam(h: string, segs: seq<string>, sep: string, tag: string, value: string)
    requires |segs| > 0 && h == Join(segs, QUOTE) && sep == "\"" + tag + "\""
    ensures h + sep + value == Join(segs + [tag, value], QUOTE)
  {
    WriteLabel(segs, tag);
    WriteValue(segs + [tag], value);
    assert segs + [tag] + [value] == segs + [tag, value];
  }

  /** The header up to the ticket. */
  lemma HeadIsJoin(asURL: string, ticket: string, realm: string)
    ensures "UMA realm=\"" + realm + "\", as_uri=\"" + asURL + "\", ticket=\"" + ticket
            == Join(["UMA realm=", realm, ", as_uri=", asURL, ", ticket=", ticket], QUOTE)
  {
    var s1 := ["UMA realm=", realm];
    var h1 := "UMA realm=\"" + realm;
    assert h1 == Join(s1, QUOTE);
    AddParam(h1, s1, "\", as_uri=\"", ", as_uri=", asURL);
    var s2, h2 := s1 + [", as_uri=", asURL], h1 + "\", as_uri=\"" + asURL;
    AddParam(h2, s2, "\", ticket=\"", ", ticket=", ticket);
    assert s2 + [", ticket=", ticket] == ["UMA realm=", realm, ", as_uri=", asURL, ", ticket=", ticket];
  }

  lemma HeaderIsJoin(asURL: string, ticket: string, scopes: string, realm: string)
    ensures Header(asURL, ticket, scopes, realm) == Join(Segments(asURL, ticket, scopes, realm), QUOTE)
  {
    var segs := ["UMA realm=", realm, ", as_uri=", asURL, ", ticket=", ticket];
    var h := "UMA realm=\"" + realm + "\", as_uri=\"" + asURL + "\", ticket=\"" + ticket;
    HeadIsJoin(asURL, ticket, realm);
    if scopes == "" {
      JoinSnoc(segs, "");
      NoTail(h + "\"");
    } else {
      ScopeTail(segs, scopes);
    }
  }

  lemma ScopeTail(segs: seq<string>, scopes: string)
    requires |segs| > 0 && scopes != ""
    ensures Join(segs, QUOTE) + "\"" + (", scope=\"" + scopes + "\"") == Join(segs + Tail(scopes), QUOTE)
  {
    var tag, pieces := ", scope=", Split(scopes, QUOTE);
    assert ", scope=\"" == tag + "\"";
    JoinSplit(scopes, QUOTE);
    LastParam(segs, tag, pieces);
    Reassemble(segs, tag, pieces);
  }

  lemma Reassemble(segs: seq<string>, tag: string, pieces: seq<string>)
    ensures segs + [tag] + pieces + [""] == segs + ([tag] + pieces + [""])
  {
  }

  lemma LastParam(segs: seq<string>, tag: string, pieces: seq<string>)
    requires |segs| > 0 && |pieces| > 0
    ensures Join(segs, QUOTE) + "\"" + (tag + "\"" + Join(pieces, QUOTE) + "\"") == Join(segs + [tag] + pieces + [""], QUOTE)
  {
    var j, value := Join(segs, QUOTE), Join(pieces, QUOTE);
    JoinSnoc(segs, tag);
    JoinAppend(segs + [tag], pieces);
    JoinSnoc(segs + [tag] + pieces, "");
    Reassociate(j + "\"", tag, "\"" + value);
    Reassociate(j + "\"" + tag, "\"", value);
    Reassociate(j + "\"", tag + "\"" + value, "\"");
    Reassociate(tag, "\"", value);
  }

  lemma {:induction false} JoinAppend(xs: seq<string>, ys: seq<string>)
    requires |xs| > 0 && |ys| > 0
    ensures Join(xs + ys, QUOTE) == Join(xs, QUOTE) + "\"" + Join(ys, QUOTE)
  {
    if |xs| == 1 {
      assert (xs + ys)[1..] == ys;
    } else {
      JoinAppend(xs[1..], ys);
      assert (xs + ys)[1..] == xs[1..] + ys;
    }
  }

  lemma Reassociate(a: string, b: string, c: string)
    ensures (a + b) + c == a + (b + c)
  {
  }

  lemma SegmentsFree(asURL: string, ticket: string, scopes: string, realm: string)
    requires QuoteFree(asURL, ticket, realm)
    ensures AllFree(Segments(asURL, ticket, scopes, realm), QUOTE)
  {
    JoinSplit(scopes, QUOTE);
  }

  /** Distinct arguments give distinct challenges, whatever the scope list holds. */
  lemma HeaderInjective(a: string, t: string, s: string, r: string, a': string, t': string, s': string, r': string)
    requires QuoteFree(a, t, r) && QuoteFree(a', t', r')
    requires Header(a, t, s, r) == Header(a', t', s', r')
    ensures a == a' && t == t' && s == s' && r == r'
  {
    HeaderIsJoin(a, t, s, r);
    HeaderIsJoin(a', t', s', r');
    var p, p' := Segments(a, t, s, r), Segments(a', t', s', r');
    SegmentsFree(a, t, s, r);
    SegmentsFree(a', t', s', r');
    SplitJoin(p, QUOTE);
    SplitJoin(p', QUOTE);
    assert p == p';
    assert p[1] == r && p[3] == a && p[5] == t && p[6..] == Tail(s);
    assert p'[1] == r' && p'[3] == a' && p'[5] == t' && p'[6..] == Tail(s');
    TailInjective(s, s');
  }

  lemma TailInjective(s: string, s': string)
    requires Tail(s) == Tail(s')
    ensures s == s'
  {
    JoinSplit(s, QUOTE);
    JoinSplit(s', QUOTE);
    if s != "" {
      assert |Tail(s)| == |Split(s, QUOTE)| + 2 && Tail(s)[1..|Tail(s)| - 1] == Split(s, QUOTE);
    }
    if s' != "" {
      assert |Tail(s')| == |Split(s', QUOTE)| + 2 && Tail(s')[1..|Tail(s')| - 1] == Split(s', QUOTE);
    }
  }

  /** Without the quote-free condition the statement fails: these two argument lists differ,
      and their challenges are the same string. */
  lemma QuotesBreakInjectivity(ticket: string, scopes: string)
    ensures Header("z", ticket, scopes, "x\", as_uri=\"y") == Header("y\", as_uri=\"z", ticket, scopes, "x")
  {
    var m := "\", as_uri=\"";
    assert "x\", as_uri=\"y" == "x" + m + "y";
    assert "y\", as_uri=\"z" == "y" + m + "z";
    var u := "UMA realm=\"";
    assert u + ("x" + m + "y") + m + "z" == u + "x" + m + ("y" + m + "z");
  }

  /** What the parser finds in a segmented header: the segment after the first one
      that ends in `tag`, provided that segment is itself closed by a quote. */
  function ValueAfter(segs: seq<string>, tag: string): string {
    if |segs| < 3 then ""
    else if HasSuffix(segs[0], tag) then segs[1]
    else ValueAfter(segs[1..], tag)
  }

  lemma QuoteAt(p: string, rest: string)
    requires QUOTE !in p
    ensures Index(p + "\"" + rest, "\"") == |p|
    ensures Index(p, "\"") < 0
  {
    var h := p + "\"" + rest;
    assert h[|p|..|p| + 1] == "\"";
    forall j | 0 <= j < |p| ensures !OccursAt(h, "\"", j) {
      assert h[j..j + 1][0] == p[j];
    }
    IndexIs(h, "\"", |p|);
    forall j ensures !OccursAt(p, "\"", j) {
      if 0 <= j < |p| { assert p[j..j + 1][0] == p[j]; }
    }
  }

  /** In an occurrence of key=" only the last character is a quote. */
  lemma NeedleQuote(h: string, key: string, j: int)
    requires QUOTE !in key && OccursAt(h, key + "=\"", j)
    ensures h[j + |key| + 1] == QUOTE
    ensures forall k :: j <= k <= j + |key| ==> h[k] != QUOTE
    ensures h[j..j + |key| + 1] == key + "="
  {
    var tag := key + "=";
    assert key + "=\"" == tag + "\"";
    Pointwise(h, tag + "\"", j);
    forall k | j <= k <= j + |key| ensures h[k] == tag[k - j] != QUOTE {
      assert h[k] == (tag + "\"")[k - j];
      assert k - j < |key| ==> tag[k - j] == key[k - j] && key[k - j] in key;
    }
    assert h[j + |key| + 1] == (tag + "\"")[|tag|];
    assert h[j..j + |tag|] == tag;
  }

  lemma Pointwise(h: string, sub: string, j: int)
    requires OccursAt(h, sub, j)
    ensures forall m :: 0 <= m < |sub| ==> h[j + m] == sub[m]
  {
    forall m | 0 <= m < |sub| ensures h[j + m] == sub[m] {
      assert h[j + m] == h[j..j + |sub|][m];
    }
  }

  /** An occurrence of key=" in p"rest either ends at that quote or lies in rest. */
  lemma NeedleSplit(p: string, rest: string, key: string, j: int)
    requires QUOTE !in p && QUOTE !in key
    requires OccursAt(p + "\"" + rest, key + "=\"", j)
    ensures (j == |p| - |key| - 1 && HasSuffix(p, key + "="))
         || (j > |p| && OccursAt(rest, key + "=\"", j - |p| - 1))
  {
    var h, needle := p + "\"" + rest, key + "=\"";
    NeedleQuote(h, key, j);
    assert h[|p|] == QUOTE && h[..|p|] == p;
    if j > |p| {
      assert rest == h[|p| + 1..];
      assert rest[j - |p| - 1..j - |p| - 1 + |needle|] == h[j..j + |needle|];
    } else {
      assert forall k :: 0 <= k < |p| ==> h[k] == p[k];
      assert j + |key| + 1 == |p|;
      assert p[j..] == h[j..j + |key| + 1];
    }
  }

  lemma NeedleIn(p: string, rest: string, key: string, j: int)
    requires OccursAt(rest, key + "=\"", j)
    ensures OccursAt(p + "\"" + rest, key + "=\"", j + |p| + 1)
  {
    var h, needle := p + "\"" + rest, key + "=\"";
    assert h[j + |p| + 1..][..|needle|] == rest[j..j + |needle|];
  }

  /** The first segment ends in the label: the next segment is the answer. */
  lemma FoundHere(p: string, rest: string, key: string)
    requires QUOTE !in p && QUOTE !in key && HasSuffix(p, key + "=")
    ensures ParamValue(p + "\"" + rest, key) == UpToQuote(rest)
  {
    var h, needle := p + "\"" + rest, key + "=\"";
    var i := |p| - |key| - 1;
    assert h[i..i + |needle|] == p[i..] + "\"" == needle;
    forall j | 0 <= j < i ensures !OccursAt(h, needle, j) {
      if OccursAt(h, needle, j) { NeedleSplit(p, rest, key, j); }
    }
    IndexIs(h, needle, i);
    assert h[i + |needle|..] == rest;
  }

  lemma IndexShift(p: string, rest: string, key: string)
    requires QUOTE !in p && QUOTE !in key && !HasSuffix(p, key + "=")
    ensures var i := Index(rest, key + "=\"");
            var k := Index(p + "\"" + rest, key + "=\"");
            if i < 0 then k < 0 else k == i + |p| + 1
  {
    var h, needle := p + "\"" + rest, key + "=\"";
    var i, k := Index(rest, needle), Index(h, needle);
    if k >= 0 {
      NeedleSplit(p, rest, key, k);
    }
    if i >= 0 {
      NeedleIn(p, rest, key, i);
    }
  }

  /** It does not: the search goes on after the quote. */
  lemma FoundLater(p: string, rest: string, key: string)
    requires QUOTE !in p && QUOTE !in key && !HasSuffix(p, key + "=")
    ensures ParamValue(p + "\"" + rest, key) == ParamValue(rest, key)
  {
    var i, k, n := Shifted(p, rest, key);
    if i >= 0 {
      DropPast(p + "\"", rest, i + n, k + n);
    }
  }

  /** Where the two searches find the value: at k and i, past a needle of length n. */
  lemma Shifted(p: string, rest: string, key: string) returns (i: int, k: int, n: nat)
    requires QUOTE !in p && QUOTE !in key && !HasSuffix(p, key + "=")
    ensures i < 0 ==> ParamValue(p + "\"" + rest, key) == ParamValue(rest, key) == ""
    ensures i >= 0 ==> i + n <= |rest| && k == i + |p + "\""|
    ensures i >= 0 ==> ParamValue(p + "\"" + rest, key) == UpToQuote((p + "\"" + rest)[k + n..])
    ensures i >= 0 ==> ParamValue(rest, key) == UpToQuote(rest[i + n..])
  {
    IndexShift(p, rest, key);
    i, n := ValueAt(rest, key);
    k, n := ValueAt(p + "\"" + rest, key);
  }

  lemma ValueAt(h: string, key: string) returns (i: int, n: nat)
    ensures i == Index(h, key + "=\"") && n == |key| + 2
    ensures if i < 0 then ParamValue(h, key) == "" else i + n <= |h| && ParamValue(h, key) == UpToQuote(h[i + n..])
  {
    i, n := Index(h, key + "=\""), |key| + 2;
  }

  lemma DropPast(p: string, rest: string, n: nat, m: nat)
    requires n <= |rest| && m == |p| + n
    ensures (p + rest)[m..] == rest[n..]
  {
  }

  /** A header of another scheme gives nothing. */
  lemma OtherScheme(header: string)
    requires |header| < 4 || header[..4] != "UMA "
    ensures ParseChallenge(header) == Parsed("", "", "")
  {
  }

  /** A header of this one gives its three parameters. */
  lemma ThisScheme(header: string)
    requires |header| >= 4 && header[..4] == "UMA "
    ensures ParseChallenge(header) == Parsed(ParamValue(header, "ticket"), ParamValue(header, "as_uri"), ParamValue(header, "scope"))
  {
  }

  /** Cut any header at its quotes: a parameter is the segment after the first one that ends
      in its label. */
  lemma CutAtQuotes(header: string, key: string, tag: string)
    requires QUOTE !in key && tag == key + "="
    ensures ParamValue(header, key) == ValueAfter(Split(header, QUOTE), tag)
  {
    JoinSplit(header, QUOTE);
    ParamValueOfSegments(Split(header, QUOTE), key);
  }

  /** The first-occurrence search, on every header made of quote-free segments. */
  lemma {:induction false} ParamValueOfSegments(segs: seq<string>, key: string)
    requires |segs| > 0 && AllFree(segs, QUOTE) && QUOTE !in key
    ensures ParamValue(Join(segs, QUOTE), key) == ValueAfter(segs, key + "=")
  {
    var p := segs[0];
    if |segs| == 1 {
      var needle := key + "=\"";
      forall j ensures !OccursAt(p, needle, j) {
        if OccursAt(p, needle, j) { NeedleQuote(p, key, j); }
      }
    } else {
      var rest := Join(segs[1..], QUOTE);
      if HasSuffix(p, key + "=") {
        FoundHere(p, rest, key);
        FirstQuote(segs[1..]);
      } else {
        FoundLater(p, rest, key);
        ParamValueOfSegments(segs[1..], key);
        assert |segs| == 2 ==> ValueAfter(segs[1..], key + "=") == "";
      }
    }
  }

  lemma FirstQuote(segs: seq<string>)
    requires |segs| > 0 && AllFree(segs, QUOTE)
    ensures |segs| == 1 ==> Index(Join(segs, QUOTE), "\"") < 0
    ensures |segs| > 1 ==> Index(Join(segs, QUOTE), "\"") == |segs[0]| && Join(segs, QUOTE)[..|segs[0]|] == segs[0]
  {
    QuoteAt(segs[0], if |segs| > 1 then Join(segs[1..], QUOTE) else "");
  }

  lemma ValueAfterCons(x: string, y: string, rest: seq<string>, tag: string)
    requires |rest| > 0
    ensures ValueAfter([x] + ([y] + rest), tag) == if HasSuffix(x, tag) then y else ValueAfter([y] + rest, tag)
  {
    assert ([x] + ([y] + rest))[1..] == [y] + rest;
  }

  lemma ValueAfterSix(u: string, r: string, v: string, a: string, w: string, t: string, tail: seq<string>, tag: string)
    requires |tail| > 0
    ensures ValueAfter([u, r, v, a, w, t] + tail, tag) ==
            if HasSuffix(u, tag) then r else if HasSuffix(r, tag) then v else if HasSuffix(v, tag) then a
            else if HasSuffix(a, tag) then w else if HasSuffix(w, tag) then t else ValueAfter([t] + tail, tag)
  {
    var s5 := [t] + tail;
    var s4 := [w] + s5;
    var s3 := [a] + s4;
    var s2 := [v] + s3;
    var s1 := [r] + s2;
    ValueAfterCons(u, r, s2, tag);
    ValueAfterCons(r, v, s3, tag);
    ValueAfterCons(v, a, s4, tag);
    ValueAfterCons(a, w, s5, tag);
    ValueAfterCons(w, t, tail, tag);
    assert [u, r, v, a, w, t] + tail == [u] + s1;
  }

  lemma ValueAfterTicket(t: string, scopes: string, tag: string)
    requires scopes == "" || HasSuffix(t, tag) || HasSuffix(", scope=", tag)
    ensures ValueAfter([t] + Tail(scopes), tag) ==
            if scopes == "" then "" else if HasSuffix(t, tag) then ", scope=" else Split(scopes, QUOTE)[0]
  {
    if scopes != "" {
      var pieces := Split(scopes, QUOTE);
      var rest := pieces[1..] + [""];
      ValueAfterCons(t, ", scope=", [pieces[0]] + rest, tag);
      ValueAfterCons(", scope=", pieces[0], rest, tag);
      assert [t] + Tail(scopes) == [t] + ([", scope="] + ([pieces[0]] + rest));
    }
  }

  lemma HeaderPrefix(asURL: string, ticket: string, scopes: string, realm: string)
    ensures HasPrefix(Header(asURL, ticket, scopes, realm), "UMA ")
  {
    var u := "UMA realm=\"";
    assert u[..4] == "UMA ";
    assert Header(asURL, ticket, scopes, realm)[..4] == u[..4];
  }

  lemma LabelEndings()
    ensures !HasSuffix("UMA realm=", "ticket=") && !HasSuffix("UMA realm=", "as_uri=") && !HasSuffix("UMA realm=", "scope=")
    ensures !HasSuffix(", as_uri=", "ticket=") && HasSuffix(", as_uri=", "as_uri=") && !HasSuffix(", as_uri=", "scope=")
    ensures HasSuffix(", ticket=", "ticket=") && !HasSuffix(", ticket=", "scope=") && HasSuffix(", scope=", "scope=")
  {
    assert "UMA realm="[|"UMA realm="| - 7..] == "A realm"[..0] + " realm=";
  }

  lemma ParamOf(asURL: string, ticket: string, scopes: string, realm: string, key: string)
    requires QuoteFree(asURL, ticket, realm) && QUOTE !in key
    ensures ParamValue(Header(asURL, ticket, scopes, realm), key) ==
            var tag := key + "=";
            if HasSuffix("UMA realm=", tag) then realm else if HasSuffix(realm, tag) then ", as_uri="
            else if HasSuffix(", as_uri=", tag) then asURL else if HasSuffix(asURL, tag) then ", ticket="
            else if HasSuffix(", ticket=", tag) then ticket
            else ValueAfter([ticket] + Tail(scopes), tag)
  {
    HeaderIsJoin(asURL, ticket, scopes, realm);
    SegmentsFree(asURL, ticket, scopes, realm);
    ParamValueOfSegments(Segments(asURL, ticket, scopes, realm), key);
    ValueAfterSix("UMA realm=", realm, ", as_uri=", asURL, ", ticket=", ticket, Tail(scopes), key + "=");
  }

  /** Exactly what the parser returns, for every quote-free realm, URL and ticket and any scope list. */
  lemma ParsedHeader(asURL: string, ticket: string, scopes: string, realm: string)
    requires QuoteFree(asURL, ticket, realm)
    ensures ParseChallenge(Header(asURL, ticket, scopes, realm)) == Parsed(
              if HasSuffix(realm, "ticket=") then ", as_uri="
              else if HasSuffix(asURL, "ticket=") then ", ticket="
              else ticket,
              if HasSuffix(realm, "as_uri=") then ", as_uri=" else asURL,
              if HasSuffix(realm, "scope=") then ", as_uri="
              else if HasSuffix(asURL, "scope=") then ", ticket="
              else if scopes == "" then ""
              else if HasSuffix(ticket, "scope=") then ", scope="
              else Split(scopes, QUOTE)[0])
  {
    HeaderPrefix(asURL, ticket, scopes, realm);
    ParsedTicket(asURL, ticket, scopes, realm);
    ParsedURL(asURL, ticket, scopes, realm);
    ParsedScope(asURL, ticket, scopes, realm);
  }

  lemma ParsedTicket(asURL: string, ticket: string, scopes: string, realm: string)
    requires QuoteFree(asURL, ticket, realm)
    ensures ParamValue(Header(asURL, ticket, scopes, realm), "ticket") ==
            if HasSuffix(realm, "ticket=") then ", as_uri=" else if HasSuffix(asURL, "ticket=") then ", ticket=" else ticket
  {
    LabelEndings();
    ParamOf(asURL, ticket, scopes, realm, "ticket");
    assert "ticket" + "=" == "ticket=";
  }

  lemma ParsedURL(asURL: string, ticket: string, scopes: string, realm: string)
    requires QuoteFree(asURL, ticket, realm)
    ensures ParamValue(Header(asURL, ticket, scopes, realm), "as_uri") ==
            if HasSuffix(realm, "as_uri=") then ", as_uri=" else asURL
  {
    LabelEndings();
    ParamOf(asURL, ticket, scopes, realm, "as_uri");
    assert "as_uri" + "=" == "as_uri=";
  }

  lemma ParsedScope(asURL: string, ticket: string, scopes: string, realm: string)
    requires QuoteFree(asURL, ticket, realm)
    ensures ParamValue(Header(asURL, ticket, scopes, realm), "scope") ==
            if HasSuffix(realm, "scope=") then ", as_uri=" else if HasSuffix(asURL, "scope=") then ", ticket="
            else if scopes == "" then "" else if HasSuffix(ticket, "scope=") then ", scope=" else Split(scopes, QUOTE)[0]
  {
    LabelEndings();
    ValueAfterTicket(ticket, scopes, "scope=");
    ParamOf(asURL, ticket, scopes, realm, "scope");
    assert "scope" + "=" == "scope=";
  }

  lemma ScopeIntact(scopes: string)
    ensures Split(scopes, QUOTE)[0] == scopes <==> QUOTE !in scopes
  {
    JoinSplit(scopes, QUOTE);
    if QUOTE !in scopes { SplitPrepend(scopes, "", QUOTE); }
  }

  /** The round trip holds exactly when no earlier value ends in the label searched for
      (a value equal to the literal text after that false match being the one coincidence)
      and, for the scope list, when it holds no quote. */
  lemma RoundTrip(asURL: string, ticket: string, scopes: string, realm: string)
    requires QuoteFree(asURL, ticket, realm)
    ensures
      var p := ParseChallenge(Header(asURL, ticket, scopes, realm));
      && (p.ticket == ticket <==>
            && (HasSuffix(realm, "ticket=") ==> ticket == ", as_uri=")
            && (!HasSuffix(realm, "ticket=") && HasSuffix(asURL, "ticket=") ==> ticket == ", ticket="))
      && (p.asURL == asURL <==> (HasSuffix(realm, "as_uri=") ==> asURL == ", as_uri="))
      && (p.scope == scopes <==>
            if HasSuffix(realm, "scope=") then scopes == ", as_uri="
            else if HasSuffix(asURL, "scope=") then scopes == ", ticket="
            else if HasSuffix(ticket, "scope=") then scopes == "" || scopes == ", scope="
            else QUOTE !in scopes)
  {
    ParsedHeader(asURL, ticket, scopes, realm);
    ScopeIntact(scopes);
  }
}
