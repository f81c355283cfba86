/**
 * The path dispatch of `render` in index.js: a location path (and, for
 * `/join`, the location hash) is classified into the view it shows, with
 * the hex keys it carries converted by `crypto.hexToBase64`, here the
 * parameter `toBase64`.  The views themselves are not modelled.
 */
module Router {

  datatype Route =
    | Home
    | Join(replicationKey: string, encryptionKey: string, publicKey: string, secretKey: string)
    | ProjectPage(discoveryKey: string)
    | Editor(discoveryKey: string, parents: seq<string>)
    | NewDraft(discoveryKey: string)
    | Comparison(discoveryKey: string, drafts: seq<string>)
    | Viewer(discoveryKey: string, digest: string)
    | MarkView(discoveryKey: string, logPublicKey: string, identifier: string)
    | MemberView(discoveryKey: string, logPublicKey: string)
    | Subscription
    | NotFound

  predicate IsHex(c: char) {
    '0' <= c <= '9' || 'a' <= c <= 'f'
  }

  predicate AllHex(s: string) {
    forall i :: 0 <= i < |s| ==> IsHex(s[i])
  }

  /** `[a-f0-9]{64}` matched exactly. */
  predicate Hex64(s: string) {
    |s| == 64 && AllHex(s)
  }

  /** `[a-f0-9]{64}(,[a-f0-9]{64})*` matched exactly. */
  predicate HexList(s: string)
    decreases |s|
  {
    |s| >= 64 && Hex64(s[..64]) && (|s| == 64 || (s[64] == ',' && HexList(s[65..])))
  }

  /** `s.split(',')`. */
  function Split(s: string): (r: seq<string>)
    ensures |r| >= 1
    ensures forall k :: 0 <= k < |r| ==> ',' !in r[k]
    ensures JoinComma(r) == s
  {
    if s == [] then [""]
    else if s[0] == ',' then [""] + Split(s[1..])
    else
      var rest := Split(s[1..]);
      [[s[0]] + rest[0]] + rest[1..]
  }

  function Map(f: string -> string, xs: seq<string>): (r: seq<string>)
    ensures |r| == |xs| && forall i :: 0 <= i < |xs| ==> r[i] == f(xs[i])
  {
    seq(|xs|, i requires 0 <= i < |xs| => f(xs[i]))
  }

  /** `/^#([a-f0-9]{64}):([a-f0-9]{64}):([a-f0-9]{64}):([a-f0-9]{64})$/`. */
  predicate JoinHash(hash: string) {
    && |hash| == 1 + 4 * 64 + 3
    && hash[0] == '#'
    && hash[65] == ':' && hash[130] == ':' && hash[195] == ':'
    && Hex64(hash[1..65]) && Hex64(hash[66..130]) && Hex64(hash[131..195]) && Hex64(hash[196..])
  }

  /** The route for the part of a project path after `/projects/{discovery key}`. */
  function ProjectRoute(discoveryKey: string, remainder: string, toBase64: string -> string): Route {
    if remainder == "" || remainder == "/" then ProjectPage(discoveryKey)
    else if remainder == "/drafts/new" then NewDraft(discoveryKey)
    else if |remainder| >= 12 && remainder[..12] == "/drafts/new/" && HexList(remainder[12..]) then
      Editor(discoveryKey, Map(toBase64, Split(remainder[12..])))
    else if |remainder| == 16 + 64 + 1 + 64 && remainder[..16] == "/drafts/compare/"
         && Hex64(remainder[16..80]) && remainder[80] == ',' && Hex64(remainder[81..]) then
      Comparison(discoveryKey, Map(toBase64, Split(remainder[16..])))
    else if |remainder| == 8 + 64 && remainder[..8] == "/drafts/" && Hex64(remainder[8..]) then
      Viewer(discoveryKey, toBase64(remainder[8..72]))
    else if |remainder| == 7 + 64 + 1 + 8 && remainder[..7] == "/marks/" && Hex64(remainder[7..71])
         && remainder[71] == ':' && AllHex(remainder[72..]) then
      MarkView(discoveryKey, toBase64(remainder[7..71]), toBase64(remainder[72..80]))
    else if |remainder| == 9 + 64 && remainder[..9] == "/members/" && Hex64(remainder[9..]) then
      MemberView(discoveryKey, toBase64(remainder[9..73]))
    else NotFound
  }

  /** `render`'s dispatch on the path and hash. */
  function Render(path: string, hash: string, toBase64: string -> string): Route {
    if path == "" || path == "/" then Home
    else if path == "/join" && hash != "" then
      if JoinHash(hash) then
        Join(toBase64(hash[1..65]), toBase64(hash[66..130]), toBase64(hash[131..195]), toBase64(hash[196..]))
      else NotFound
    else if |path| >= 74 && path[..10] == "/projects/" && Hex64(path[10..74]) then
      ProjectRoute(toBase64(path[10..74]), path[74..], toBase64)
    else if path == "/subscription" then Subscription
    else NotFound
  }

  // ----- links -----

  /** A route with its keys in hex, as links are written. */
  datatype Link =
    | HomeLink
    | ProjectLink(discoveryKey: string)
    | NewDraftLink(discoveryKey: string)
    | EditorLink(discoveryKey: string, parents: seq<string>)
    | ComparisonLink(discoveryKey: string, a: string, b: string)
    | ViewerLink(discoveryKey: string, digest: string)
    | MarkLink(discoveryKey: string, logPublicKey: string, identifier: string)
    | MemberLink(discoveryKey: string, logPublicKey: string)
    | SubscriptionLink

  predicate AllHex64(xs: seq<string>) {
    forall i :: 0 <= i < |xs| ==> Hex64(xs[i])
  }

  predicate WellFormed(link: Link) {
    match link
    case HomeLink => true
    case ProjectLink(d) => Hex64(d)
    case NewDraftLink(d) => Hex64(d)
    case EditorLink(d, parents) => Hex64(d) && |parents| >= 1 && AllHex64(parents)
    case ComparisonLink(d, a, b) => Hex64(d) && Hex64(a) && Hex64(b)
    case ViewerLink(d, digest) => Hex64(d) && Hex64(digest)
    case MarkLink(d, k, identifier) => Hex64(d) && Hex64(k) && |identifier| == 8 && AllHex(identifier)
    case MemberLink(d, k) => Hex64(d) && Hex64(k)
    case SubscriptionLink => true
  }

  /** `parents.join(',')`. */
  function JoinComma(xs: seq<string>): string
    requires |xs| >= 1
  {
    if |xs| == 1 then xs[0] else xs[0] + "," + JoinComma(xs[1..])
  }

  /** The path a link points to. */
  function Path(link: Link): string
    requires WellFormed(link)
  {
    match link
    case HomeLink => "/"
    case ProjectLink(d) => "/projects/" + d
    case NewDraftLink(d) => "/projects/" + d + "/drafts/new"
    case EditorLink(d, parents) => "/projects/" + d + "/drafts/new/" + JoinComma(parents)
    case ComparisonLink(d, a, b) => "/projects/" + d + "/drafts/compare/" + a + "," + b
    case ViewerLink(d, digest) => "/projects/" + d + "/drafts/" + digest
    case MarkLink(d, k, identifier) => "/projects/" + d + "/marks/" + k + ":" + identifier
    case MemberLink(d, k) => "/projects/" + d + "/members/" + k
    case SubscriptionLink => "/subscription"
  }

  /** The route a link should show, its keys converted from hex. */
  function Expected(link: Link, toBase64: string -> string): Route {
    match link
    case HomeLink => Home
    case ProjectLink(d) => ProjectPage(toBase64(d))
    case NewDraftLink(d) => NewDraft(toBase64(d))
    case EditorLink(d, parents) => Editor(toBase64(d), Map(toBase64, parents))
    case ComparisonLink(d, a, b) => Comparison(toBase64(d), [toBase64(a), toBase64(b)])
    case ViewerLink(d, digest) => Viewer(toBase64(d), toBase64(digest))
    case MarkLink(d, k, identifier) => MarkView(toBase64(d), toBase64(k), toBase64(identifier))
    case MemberLink(d, k) => MemberView(toBase64(d), toBase64(k))
    case SubscriptionLink => Subscription
  }

  // ----- splitting comma lists -----

  /** A piece with no comma, followed by a comma, is split off whole. */
  lemma {:induction false} SplitPrefix(g: string, rest: string)
    requires forall i :: 0 <= i < |g| ==> g[i] != ','
    ensures Split(g + [','] + rest) == [g] + Split(rest)
    ensures Split(g) == [g]
    decreases |g|
  {
    if g == [] {
      assert g + [','] + rest == [','] + rest;
      assert (g + [','] + rest)[1..] == rest;
    } else {
      SplitPrefix(g[1..], rest);
      assert (g + [','] + rest)[1..] == g[1..] + [','] + rest;
      assert [g[0]] + g[1..] == g;
    }
  }

  /** An exact comma-separated hex list splits into its groups, in order. */
  lemma {:induction false} SplitHexList(s: string)
    requires HexList(s)
    ensures AllHex64(Split(s)) && |Split(s)| >= 1
    ensures JoinComma(Split(s)) == s
    decreases |s|
  {
    var g := s[..64];
    assert forall i :: 0 <= i < |g| ==> g[i] != ',' by {
      assert forall i :: 0 <= i < |g| ==> IsHex(g[i]);
    }
    if |s| == 64 {
      SplitPrefix(g, "");
      assert s == g;
    } else {
      var rest := s[65..];
      assert s == g + [','] + rest;
      SplitPrefix(g, rest);
      SplitHexList(rest);
      var parts := Split(s);
      assert parts == [g] + Split(rest);
      assert parts[1..] == Split(rest);
    }
  }

  lemma {:induction false} JoinCommaHexList(xs: seq<string>)
    requires |xs| >= 1 && AllHex64(xs)
    ensures HexList(JoinComma(xs))
    ensures Split(JoinComma(xs)) == xs
  {
    var s := JoinComma(xs);
    var g := xs[0];
    assert forall i :: 0 <= i < |g| ==> g[i] != ',' by {
      assert forall i :: 0 <= i < |g| ==> IsHex(g[i]);
    }
    if |xs| == 1 {
      SplitPrefix(g, "");
      assert s == g && s[..64] == g;
    } else {
      var rest := JoinComma(xs[1..]);
      JoinCommaHexList(xs[1..]);
      assert s == g + [','] + rest;
      assert s[..64] == g && s[64] == ',' && s[65..] == rest;
      SplitPrefix(g, rest);
      assert xs == [g] + xs[1..];
    }
  }

  // ----- properties of the dispatch -----

  /** A path under `/projects/{64 hex}` is dispatched on what follows the key. */
  lemma RenderProjectPath(d: string, remainder: string, hash: string, toBase64: string -> string)
    requires Hex64(d)
    ensures Render("/projects/" + d + remainder, hash, toBase64) == ProjectRoute(toBase64(d), remainder, toBase64)
  {
    var path := "/projects/" + d + remainder;
    assert path[..10] == "/projects/" && path[10..74] == d && path[74..] == remainder;
  }

  lemma EditorRemainder(k: string, parents: seq<string>, toBase64: string -> string)
    requires |parents| >= 1 && AllHex64(parents)
    ensures ProjectRoute(k, "/drafts/new/" + JoinComma(parents), toBase64) == Editor(k, Map(toBase64, parents))
  {
    var list := JoinComma(parents);
    var remainder := "/drafts/new/" + list;
    JoinCommaHexList(parents);
    assert remainder[..12] == "/drafts/new/" && remainder[12..] == list;
    assert remainder != "/drafts/new";
  }

  lemma ComparisonRemainder(k: string, a: string, b: string, toBase64: string -> string)
    requires Hex64(a) && Hex64(b)
    ensures ProjectRoute(k, "/drafts/compare/" + a + "," + b, toBase64) == Comparison(k, [toBase64(a), toBase64(b)])
  {
    var remainder := "/drafts/compare/" + a + "," + b;
    assert remainder[..16] == "/drafts/compare/" && remainder[16..80] == a && remainder[81..] == b;
    assert remainder[..12][8] == 'c' && "/drafts/new/"[8] == 'n';
    JoinCommaHexList([a, b]);
    assert JoinComma([a, b]) == remainder[16..];
  }

  lemma ViewerRemainder(k: string, digest: string, toBase64: string -> string)
    requires Hex64(digest)
    ensures ProjectRoute(k, "/drafts/" + digest, toBase64) == Viewer(k, toBase64(digest))
  {
    var remainder := "/drafts/" + digest;
    assert remainder[..8] == "/drafts/" && remainder[8..] == digest && remainder[8..72] == digest;
    assert remainder[..12][8] == digest[0] && IsHex(digest[0]) && "/drafts/new/"[8] == 'n';
  }

  lemma MarkRemainder(k: string, logPublicKey: string, identifier: string, toBase64: string -> string)
    requires Hex64(logPublicKey) && |identifier| == 8 && AllHex(identifier)
    ensures ProjectRoute(k, "/marks/" + logPublicKey + ":" + identifier, toBase64) ==
      MarkView(k, toBase64(logPublicKey), toBase64(identifier))
  {
    var remainder := "/marks/" + logPublicKey + ":" + identifier;
    assert remainder[..7] == "/marks/" && remainder[7..71] == logPublicKey && remainder[72..] == identifier;
    assert remainder[72..] == identifier && remainder[72..80] == identifier;
    assert remainder[..12][1] == 'm' && remainder[..8][1] == 'm' && "/drafts/"[1] == 'd';
  }

  lemma MemberRemainder(k: string, logPublicKey: string, toBase64: string -> string)
    requires Hex64(logPublicKey)
    ensures ProjectRoute(k, "/members/" + logPublicKey, toBase64) == MemberView(k, toBase64(logPublicKey))
  {
    var remainder := "/members/" + logPublicKey;
    assert remainder[..9] == "/members/" && remainder[9..] == logPublicKey;
    assert remainder[9..73] == logPublicKey;
    assert remainder[..12][1] == 'm' && remainder[..8][1] == 'm' && "/drafts/"[1] == 'd';
    assert remainder[..7][2] == 'e' && "/marks/"[2] == 'a';
  }

  /** A project link's path is the project prefix followed by the link's own remainder. */
  function Remainder(link: Link): string
    requires WellFormed(link)
  {
    match link
    case ProjectLink(d) => ""
    case NewDraftLink(d) => "/drafts/new"
    case EditorLink(d, parents) => "/drafts/new/" + JoinComma(parents)
    case ComparisonLink(d, a, b) => "/drafts/compare/" + a + "," + b
    case ViewerLink(d, digest) => "/drafts/" + digest
    case MarkLink(d, k, identifier) => "/marks/" + k + ":" + identifier
    case MemberLink(d, k) => "/members/" + k
    case _ => ""
  }

  lemma RemainderRoute(link: Link, toBase64: string -> string)
    requires WellFormed(link) && !link.HomeLink? && !link.SubscriptionLink?
    ensures ProjectRoute(toBase64(link.discoveryKey), Remainder(link), toBase64) == Expected(link, toBase64)
  {
    var k := toBase64(link.discoveryKey);
    match link
    case ProjectLink(d) =>
    case NewDraftLink(d) =>
    case EditorLink(d, parents) => EditorRemainder(k, parents, toBase64);
    case ComparisonLink(d, a, b) => ComparisonRemainder(k, a, b, toBase64);
    case ViewerLink(d, digest) => ViewerRemainder(k, digest, toBase64);
    case MarkLink(d, lk, identifier) => MarkRemainder(k, lk, identifier, toBase64);
    case MemberLink(d, lk) => MemberRemainder(k, lk, toBase64);
  }

  lemma ProjectPathSplit(link: Link)
    requires WellFormed(link) && !link.HomeLink? && !link.SubscriptionLink?
    ensures Path(link) == "/projects/" + link.discoveryKey + Remainder(link)
  {
    match link
    case ProjectLink(d) =>
    case NewDraftLink(d) =>
    case EditorLink(d, parents) =>
    case ComparisonLink(d, a, b) =>
    case ViewerLink(d, digest) =>
    case MarkLink(d, lk, identifier) =>
    case MemberLink(d, lk) =>
  }

  /** Every well-formed link shows the route it is meant for. */
  lemma RenderLink(link: Link, hash: string, toBase64: string -> string)
    requires WellFormed(link)
    ensures Render(Path(link), hash, toBase64) == Expected(link, toBase64)
  {
    if link.HomeLink? {
      assert Path(link) == "/";
    } else if link.SubscriptionLink? {
      assert Path(link) == "/subscription";
    } else {
      ProjectPathSplit(link);
      RenderProjectPath(link.discoveryKey, Remainder(link), hash, toBase64);
      RemainderRoute(link, toBase64);
    }
  }

  /** `/join` with a hash of exactly four hex groups joins with those keys, in order; any other hash is not found. */
  lemma RenderJoin(a: string, b: string, c: string, d: string, toBase64: string -> string)
    requires Hex64(a) && Hex64(b) && Hex64(c) && Hex64(d)
    ensures Render("/join", "#" + a + ":" + b + ":" + c + ":" + d, toBase64) ==
      Join(toBase64(a), toBase64(b), toBase64(c), toBase64(d))
  {
    var hash := "#" + a + ":" + b + ":" + c + ":" + d;
    assert hash[1..65] == a && hash[66..130] == b && hash[131..195] == c && hash[196..] == d;
  }

  lemma RenderJoinOther(hash: string, toBase64: string -> string)
    requires !JoinHash(hash)
    ensures Render("/join", hash, toBase64) == NotFound
  {
  }

  /** A join route comes only from `/join` with a four-group hash. */
  lemma RenderJoinOnly(path: string, hash: string, toBase64: string -> string)
    requires Render(path, hash, toBase64).Join?
    ensures path == "/join" && JoinHash(hash)
  {
  }

  /** A project path whose remainder matches none of the project routes is not found. */
  lemma ProjectRemainderFallsThrough(path: string, hash: string, toBase64: string -> string)
    requires |path| >= 74 && path[..10] == "/projects/" && Hex64(path[10..74])
    requires ProjectRoute(toBase64(path[10..74]), path[74..], toBase64) == NotFound
    ensures Render(path, hash, toBase64) == NotFound
  {
  }

  /** A path that is not home, not a join link, not under a project key and not `/subscription` is not found. */
  lemma RenderFallsThrough(path: string, hash: string, toBase64: string -> string)
    requires path != "" && path != "/" && path != "/subscription"
    requires path != "/join" || hash == ""
    requires !(|path| >= 74 && path[..10] == "/projects/" && Hex64(path[10..74]))
    ensures Render(path, hash, toBase64) == NotFound
  {
  }
}
