/** The fetch resolver of the client (`fetchSubredditPosts`): a direct request to
    the listing endpoint, then the proxies in order, stopping at the first
    well-formed listing. The network is replaced by the outcome of each attempt,
    given in the order the source would make them. */
module Fetch {
  import opened Outcomes
  import opened Text

  /** The retrieval strategies: the empty prefix is the direct call, the others
      are proxy URL prefixes tried in order. */
  const CORS_PROXIES: seq<string> := ["", "https://corsproxy.io/?", "https://api.allorigins.win/raw?url="]

  /** A post, as the client keeps it. */
  datatype Post = Post(
    id: string,
    title: string,
    author: string,
    score: int,
    numComments: int,
    createdUtc: int,
    permalink: string,
    url: string,
    subreddit: string)

  /** The `data` record of one listing child: the nine fields the client reads,
      and whatever else the listing carries, which the client drops. */
  datatype ChildData = ChildData(
    id: string,
    title: string,
    author: string,
    score: int,
    numComments: int,
    createdUtc: int,
    permalink: string,
    url: string,
    subreddit: string,
    extra: map<string, string>)

  /** One element of `children`; `None` when it has no `data`, so that reading
      `child.data.id` throws a TypeError. */
  datatype Child = Child(data: Option<ChildData>)

  /** What `data.data.children` holds: nothing (missing or falsy), a truthy value
      that is not an array (calling `map` on it throws a TypeError), or an array. */
  datatype Children = NoChildren | NotAnArray | Items(items: seq<Child>)

  datatype Listing = Listing(children: Children)

  /** A body that parsed as JSON: `null` (reading `data.data` throws a TypeError), or
      any other value, whose `data` member is a listing or is missing or falsy. */
  datatype Json = NullBody | Body(data: Option<Listing>)

  /** A response body: `response.json()` either rejects (a SyntaxError, with its
      message) or yields a JSON value. */
  datatype Body = Unparsable(message: string) | Parsed(json: Json)

  /** One request: `fetch` rejects with a TypeError (network failure, CORS refusal),
      or a response arrives with a status and a body. */
  datatype Attempt = NetworkFailure | Response(status: nat, body: Body)

  /** The errors the resolver can end with. */
  datatype Failure =
    | NotFound
    | Forbidden
    | RateLimited
    | FetchFailed(status: nat)
    | InvalidPayload
    | BadJson(message: string)
    | Exhausted

  /** What the direct attempt throws: a TypeError, or an error carrying a failure. */
  datatype Thrown = TypeError | Raised(failure: Failure)

  /** What reading a parsed body yields: a shape check that fails, an access
      that throws a TypeError, or the normalised posts. */
  datatype Shape = Malformed | Throws | Posts(posts: seq<Post>)

  /** `response.ok`. */
  predicate IsOk(status: nat)
  {
    200 <= status <= 299
  }

  /** The nine fields of `p` are those of `d`, unchanged. */
  predicate Projects(d: ChildData, p: Post)
  {
    p.id == d.id && p.title == d.title && p.author == d.author &&
    p.score == d.score && p.numComments == d.numComments &&
    p.createdUtc == d.createdUtc && p.permalink == d.permalink &&
    p.url == d.url && p.subreddit == d.subreddit
  }

  function ToPost(d: ChildData): Post
  {
    Post(d.id, d.title, d.author, d.score, d.numComments, d.createdUtc, d.permalink, d.url, d.subreddit)
  }

  predicate AllHaveData(cs: seq<Child>)
  {
    forall k :: 0 <= k < |cs| ==> cs[k].data.Some?
  }

  /** `children.map(child => ({...}))`: one post per child, in the same order,
      each holding its child's nine fields as given (a zero or negative score
      included). */
  function Normalise(cs: seq<Child>): (ps: seq<Post>)
    requires AllHaveData(cs)
    ensures |ps| == |cs|
    ensures forall k :: 0 <= k < |cs| ==> Projects(cs[k].data.value, ps[k])
  {
    if cs == [] then [] else [ToPost(cs[0].data.value)] + Normalise(cs[1..])
  }

  /** The validity check `!data.data || !data.data.children` followed by the mapping. */
  function Extract(j: Json): (s: Shape)
    ensures s.Malformed? <==> j.Body? && (j.data.None? || j.data.value.children.NoChildren?)
    ensures s.Posts? <==>
      j.Body? && j.data.Some? && j.data.value.children.Items? && AllHaveData(j.data.value.children.items)
    ensures s.Posts? ==> var cs := j.data.value.children.items;
      |s.posts| == |cs| && forall k :: 0 <= k < |cs| ==> Projects(cs[k].data.value, s.posts[k])
  {
    match j
    case NullBody => Throws
    case Body(None) => Malformed
    case Body(Some(listing)) =>
      match listing.children
      case NoChildren => Malformed
      case NotAnArray => Throws
      case Items(cs) => if AllHaveData(cs) then Posts(Normalise(cs)) else Throws
  }

  /** The message of the rate-limit error; it does not name the subreddit. It is
      one sentence pair, written as three pieces only so that `RateLimitText` can
      check each piece for capitals separately. */
  const RATE_LIMIT_TEXT := "Too many requests. " + "Please wait a moment " + "and try again."

  /** The message of the error thrown once every proxy has failed. */
  const EXHAUSTED_TEXT :=
    "Unable to fetch data. This may be due to CORS restrictions. Try opening the file from a local server (e.g., using Live Server extension in VS Code)."

  /** The text of the error thrown for each failure; the four that concern one
      subreddit embed its name. */
  function Message(f: Failure, subreddit: string): (m: string)
    ensures (f.NotFound? || f.Forbidden? || f.FetchFailed? || f.InvalidPayload?) ==> Contains(m, subreddit)
  {
    match f
    case NotFound => Around("Subreddit r/", subreddit, " not found")
    case Forbidden => Around("Access to r/", subreddit, " is forbidden (private or banned)")
    case RateLimited => RATE_LIMIT_TEXT
    case FetchFailed(status) => Around("Failed to fetch r/", subreddit, " (Status: " + Decimal(status) + ")")
    case InvalidPayload => Around("Invalid data received from r/", subreddit, "")
    case BadJson(message) => message
    case Exhausted => EXHAUSTED_TEXT
  }

  /** The catch clause's test: a TypeError, or a message mentioning CORS or Network.
      A TypeError always falls back; a rate-limit error never does. */
  predicate FallsBackToProxy(t: Thrown, subreddit: string)
    ensures t.TypeError? ==> FallsBackToProxy(t, subreddit)
    ensures t == Raised(RateLimited) ==> !FallsBackToProxy(t, subreddit)
  {
    RateLimitMessageWords("CORS");
    RateLimitMessageWords("Network");
    t.TypeError? || Contains(Message(t.failure, subreddit), "CORS") || Contains(Message(t.failure, subreddit), "Network")
  }

  /** The direct attempt and its classification. It accepts exactly the listings a
      proxy accepts; every failing status raises a failure of its own, and none of
      them is the exhausted error. */
  function Direct(subreddit: string, a: Attempt): (t: Result<seq<Post>, Thrown>)
    ensures t.Ok? <==> TryProxy(a).Some?
    ensures t.Ok? ==> t.value == TryProxy(a).value
    ensures a.Response? && !IsOk(a.status) ==> t.Err? && t.error.Raised?
    ensures t.Err? && t.error.Raised? ==> !t.error.failure.Exhausted?
  {
    match a
    case NetworkFailure => Err(TypeError)
    case Response(status, body) =>
      if status == 404 then Err(Raised(NotFound))
      else if status == 403 then Err(Raised(Forbidden))
      else if status == 429 then Err(Raised(RateLimited))
      else if !IsOk(status) then Err(Raised(FetchFailed(status)))
      else
        match body
        case Unparsable(message) => Err(Raised(BadJson(message)))
        case Parsed(j) =>
          match Extract(j)
          case Malformed => Err(Raised(InvalidPayload))
          case Throws => Err(TypeError)
          case Posts(ps) => Ok(ps)
  }

  /** One pass of the proxy loop's body: the posts, or `None` to go on to the next proxy. */
  function TryProxy(a: Attempt): (p: Option<seq<Post>>)
    ensures p.Some? <==> a.Response? && IsOk(a.status) && a.body.Parsed? && Extract(a.body.json).Posts?
    ensures p.Some? ==> p.value == Extract(a.body.json).posts
  {
    match a
    case NetworkFailure => None
    case Response(status, body) =>
      if !IsOk(status) then None
      else
        match body
        case Unparsable(_) => None
        case Parsed(j) =>
          match Extract(j)
          case Posts(ps) => Some(ps)
          case _ => None
  }

  /** The proxy loop from proxy `i` on. */
  function FromProxies(attempts: seq<Attempt>, i: nat): (r: Result<seq<Post>, Failure>)
    ensures r.Err? ==> r.error == Exhausted
    ensures r.Ok? ==> exists k :: i <= k < |attempts| && TryProxy(attempts[k]) == Some(r.value)
    decreases |attempts| - i
  {
    if i >= |attempts| then Err(Exhausted)
    else
      match TryProxy(attempts[i])
      case Some(ps) => Ok(ps)
      case None => FromProxies(attempts, i + 1)
  }

  /** The whole resolver: `attempts[i]` is what the request through `CORS_PROXIES[i]`
      would give, index 0 being the direct call. */
  function Resolve(subreddit: string, attempts: seq<Attempt>): (r: Result<seq<Post>, Failure>)
    requires |attempts| == |CORS_PROXIES|
    ensures r.Ok? ==> exists k :: 0 <= k < |attempts| && TryProxy(attempts[k]) == Some(r.value)
    ensures r.Err? && !r.error.Exhausted? ==> Direct(subreddit, attempts[0]) == Err(Raised(r.error))
  {
    match Direct(subreddit, attempts[0])
    case Ok(ps) => Ok(ps)
    case Err(t) => if FallsBackToProxy(t, subreddit) then FromProxies(attempts, 1) else Err(t.failure)
  }

  /** `fetchSubredditPosts`, with its loop over the proxies. */
  method FetchSubredditPosts(subreddit: string, attempts: seq<Attempt>) returns (r: Result<seq<Post>, Failure>)
    requires |attempts| == |CORS_PROXIES|
    ensures r == Resolve(subreddit, attempts)
  {
    var direct := Direct(subreddit, attempts[0]);
    if direct.Ok? {
      return Ok(direct.value);
    }
    var lastError := direct.error;
    if !FallsBackToProxy(lastError, subreddit) {
      return Err(lastError.failure);
    }
    for i := 1 to |CORS_PROXIES|
      invariant FromProxies(attempts, i) == FromProxies(attempts, 1)
    {
      var posts := TryProxy(attempts[i]);
      if posts.None? {
        continue;
      }
      return Ok(posts.value);
    }
    return Err(Exhausted);
  }

  // ----- What the messages say -----

  /** The four messages that embed the subreddit name mention CORS or Network exactly
      when the name does; the rate-limit message never does. */
  lemma MessageWords(f: Failure, subreddit: string, w: string)
    requires w == "CORS" || w == "Network"
    ensures (f.NotFound? || f.Forbidden? || f.FetchFailed? || f.InvalidPayload?) ==>
      (Contains(Message(f, subreddit), w) <==> Contains(subreddit, w))
    ensures f.RateLimited? ==> !Contains(Message(f, subreddit), w)
  {
    match f
    case NotFound => NotFoundMessageWords(subreddit, w);
    case Forbidden => ForbiddenMessageWords(subreddit, w);
    case FetchFailed(status) => StatusMessageWords(status, subreddit, w);
    case InvalidPayload => InvalidMessageWords(subreddit, w);
    case RateLimited => RateLimitMessageWords(w);
    case _ =>
  }

  lemma NotFoundMessageWords(subreddit: string, w: string)
    requires w == "CORS" || w == "Network"
    ensures Contains(Message(NotFound, subreddit), w) <==> Contains(subreddit, w)
  {
    NameWord("Subreddit r/", subreddit, " not found", w);
  }

  lemma ForbiddenMessageWords(subreddit: string, w: string)
    requires w == "CORS" || w == "Network"
    ensures Contains(Message(Forbidden, subreddit), w) <==> Contains(subreddit, w)
  {
    NameWord("Access to r/", subreddit, " is forbidden (private or banned)", w);
  }

  lemma InvalidMessageWords(subreddit: string, w: string)
    requires w == "CORS" || w == "Network"
    ensures Contains(Message(InvalidPayload, subreddit), w) <==> Contains(subreddit, w)
  {
    NameWord("Invalid data received from r/", subreddit, "", w);
  }

  lemma StatusMessageWords(status: nat, subreddit: string, w: string)
    requires w == "CORS" || w == "Network"
    ensures Contains(Message(FetchFailed(status), subreddit), w) <==> Contains(subreddit, w)
  {
    var q := " (Status: " + Decimal(status) + ")";
    DecimalHasOnlyDigits(status, 'C');
    DecimalHasOnlyDigits(status, 'N');
    assert 'C' !in q && 'N' !in q;
    NameWord("Failed to fetch r/", subreddit, q, w);
  }

  lemma RateLimitMessageWords(w: string)
    requires w == "CORS" || w == "Network"
    ensures forall subreddit :: !Contains(Message(RateLimited, subreddit), w)
  {
    RateLimitText();
    assert w[0] == 'C' || w[0] == 'N';
    AbsentHead(RATE_LIMIT_TEXT, w);
  }

  /** The rate-limit message has neither a capital C nor a capital N. */
  lemma RateLimitText()
    ensures 'C' !in RATE_LIMIT_TEXT && 'N' !in RATE_LIMIT_TEXT
  {
    PlainPiece("Too many requests. ");
    PlainPiece("Please wait a moment ");
    PlainPiece("and try again.");
  }

  /** The pieces of the rate-limit message, each without a capital C or N. */
  lemma PlainPiece(a: string)
    requires a == "Too many requests. " || a == "Please wait a moment " || a == "and try again."
    ensures 'C' !in a && 'N' !in a
  {
  }

  /** A name framed by text without a capital C or N, whose right-hand part starts
      with a space, mentions CORS or Network exactly when the name does. */
  lemma NameWord(p: string, subreddit: string, q: string, w: string)
    requires w == "CORS" || w == "Network"
    requires 'C' !in p && 'N' !in p && 'C' !in q && 'N' !in q
    requires q == [] || q[0] == ' '
    ensures Contains(p + subreddit + q, w) <==> Contains(subreddit, w)
  {
    assert w[0] == 'C' || w[0] == 'N';
    assert ' ' !in w;
    Framed(p, subreddit, q, w);
  }

  // ----- Direct-call classification -----

  /** A 404, a 403, any other failing status but 429, or an ok response without
      `data.data.children`, ends the resolver with its own error, whatever the proxies
      would give, when the name mentions neither CORS nor Network. */
  lemma DirectErrorIsFinal(subreddit: string, attempts: seq<Attempt>)
    requires |attempts| == |CORS_PROXIES| && attempts[0].Response?
    requires !Contains(subreddit, "CORS") && !Contains(subreddit, "Network")
    ensures var a := attempts[0];
      (a.status == 404 ==> Resolve(subreddit, attempts) == Err(NotFound)) &&
      (a.status == 403 ==> Resolve(subreddit, attempts) == Err(Forbidden)) &&
      (a.status != 404 && a.status != 403 && a.status != 429 && !IsOk(a.status) ==>
        Resolve(subreddit, attempts) == Err(FetchFailed(a.status))) &&
      (IsOk(a.status) && a.body.Parsed? && Extract(a.body.json).Malformed? ==>
        Resolve(subreddit, attempts) == Err(InvalidPayload))
  {
    var a := attempts[0];
    match Direct(subreddit, a)
    case Ok(_) =>
    case Err(t) =>
      if t.Raised? {
        MessageWords(t.failure, subreddit, "CORS");
        MessageWords(t.failure, subreddit, "Network");
      }
  }

  /** A 429 is final for every name. */
  lemma RateLimitIsFinal(subreddit: string, attempts: seq<Attempt>)
    requires |attempts| == |CORS_PROXIES| && attempts[0].Response? && attempts[0].status == 429
    ensures Resolve(subreddit, attempts) == Err(RateLimited)
  {
    MessageWords(RateLimited, subreddit, "CORS");
    MessageWords(RateLimited, subreddit, "Network");
  }

  /** The quirk: the name is part of the message, so a name mentioning CORS or Network
      turns a 404, 403, failing status or malformed listing into a proxy retry. */
  lemma NameSendsToProxies(subreddit: string, attempts: seq<Attempt>)
    requires |attempts| == |CORS_PROXIES| && attempts[0].Response?
    requires Contains(subreddit, "CORS") || Contains(subreddit, "Network")
    requires var a := attempts[0];
      a.status != 429 &&
      (!IsOk(a.status) || (a.body.Parsed? && Extract(a.body.json).Malformed?))
    ensures Resolve(subreddit, attempts) == FromProxies(attempts, 1)
  {
    var t := Direct(subreddit, attempts[0]);
    assert t.Err? && t.error.Raised?;
    var f := t.error.failure;
    assert f.NotFound? || f.Forbidden? || f.FetchFailed? || f.InvalidPayload?;
    if Contains(subreddit, "CORS") {
      MessageWords(f, subreddit, "CORS");
    } else {
      MessageWords(f, subreddit, "Network");
    }
  }

  /** A direct request that fails at the network level goes to the proxies. */
  lemma DirectNetworkFailure(subreddit: string, attempts: seq<Attempt>)
    requires |attempts| == |CORS_PROXIES| && attempts[0].NetworkFailure?
    ensures Resolve(subreddit, attempts) == FromProxies(attempts, 1)
  {
    assert Direct(subreddit, attempts[0]) == Err(TypeError);
  }

  /** An ok direct listing whose reading throws a TypeError goes to the proxies; a
      well-formed one is returned as is. */
  lemma DirectListing(subreddit: string, attempts: seq<Attempt>)
    requires |attempts| == |CORS_PROXIES|
    requires var a := attempts[0]; a.Response? && IsOk(a.status) && a.body.Parsed?
    ensures Extract(attempts[0].body.json).Throws? ==> Resolve(subreddit, attempts) == FromProxies(attempts, 1)
    ensures Extract(attempts[0].body.json).Posts? ==>
      Resolve(subreddit, attempts) == Ok(Extract(attempts[0].body.json).posts)
  {
    var a := attempts[0];
    match Extract(a.body.json)
    case Throws => assert Direct(subreddit, a) == Err(TypeError);
    case Posts(ps) => assert Direct(subreddit, a) == Ok(ps);
    case Malformed =>
  }

  /** An ok direct response whose body does not parse ends with the parser's own
      error, unless that error's message mentions CORS or Network; then the
      proxies are tried. */
  lemma DirectBadJson(subreddit: string, attempts: seq<Attempt>)
    requires |attempts| == |CORS_PROXIES|
    requires var a := attempts[0]; a.Response? && IsOk(a.status) && a.body.Unparsable?
    ensures var m := attempts[0].body.message;
      Resolve(subreddit, attempts) ==
        if Contains(m, "CORS") || Contains(m, "Network") then FromProxies(attempts, 1) else Err(BadJson(m))
  {
    assert Direct(subreddit, attempts[0]) == Err(Raised(BadJson(attempts[0].body.message)));
  }

  // ----- The proxy loop -----

  /** Proxies are tried in index order: the first one with a well-formed listing
      supplies the posts, the ones before it having been skipped; if none has one
      the result is the exhausted error, and no other error comes out of the loop. */
  lemma {:induction false} ProxyOrder(attempts: seq<Attempt>, i: nat)
    requires i <= |attempts|
    ensures FromProxies(attempts, i).Err? ==> FromProxies(attempts, i).error == Exhausted
    ensures FromProxies(attempts, i).Err? <==> forall k :: i <= k < |attempts| ==> TryProxy(attempts[k]).None?
    ensures forall k ::
      (i <= k < |attempts| && TryProxy(attempts[k]).Some? &&
       forall j :: i <= j < k ==> TryProxy(attempts[j]).None?) ==>
        FromProxies(attempts, i) == Ok(TryProxy(attempts[k]).value)
    decreases |attempts| - i
  {
    if i < |attempts| {
      ProxyOrder(attempts, i + 1);
    }
  }

  /** A case-by-case restatement of `TryProxy`'s contract. Which responses the proxy loop skips: a network failure, a failing status, a
      body that does not parse, a listing without children or one whose reading
      throws; an ok, well-formed listing is taken. */
  lemma ProxySkips(a: Attempt)
    ensures a.NetworkFailure? ==> TryProxy(a).None?
    ensures a.Response? && !IsOk(a.status) ==> TryProxy(a).None?
    ensures a.Response? && a.body.Unparsable? ==> TryProxy(a).None?
    ensures a.Response? && a.body.Parsed? && !Extract(a.body.json).Posts? ==> TryProxy(a).None?
    ensures a.Response? && IsOk(a.status) && a.body.Parsed? && Extract(a.body.json).Posts? ==>
      TryProxy(a) == Some(Extract(a.body.json).posts)
  {
  }

  // ----- Scenarios -----

  /** A 404 for a name that does not exist is reported as such, whatever the proxies say. */
  lemma MissingSubreddit(body: Body, p1: Attempt, p2: Attempt)
    ensures Resolve("thisdoesnotexist123", [Response(404, body), p1, p2]) == Err(NotFound)
  {
    AbsentHead("thisdoesnotexist123", "CORS");
    AbsentHead("thisdoesnotexist123", "Network");
    DirectErrorIsFinal("thisdoesnotexist123", [Response(404, body), p1, p2]);
  }

  /** Direct call refused, first proxy answers 500, second proxy has three posts:
      those three posts, in order, are the result. */
  lemma SecondProxySupplies(subreddit: string, body: Body, d0: ChildData, d1: ChildData, d2: ChildData)
    ensures var listing := Parsed(Body(Some(Listing(Items([Child(Some(d0)), Child(Some(d1)), Child(Some(d2))])))));
      Resolve(subreddit, [NetworkFailure, Response(500, body), Response(200, listing)]) ==
        Ok([ToPost(d0), ToPost(d1), ToPost(d2)])
  {
    var cs := [Child(Some(d0)), Child(Some(d1)), Child(Some(d2))];
    assert AllHaveData(cs);
    assert cs[1..][1..][1..] == [];
    assert Normalise(cs) == [ToPost(d0), ToPost(d1), ToPost(d2)];
    var attempts := [NetworkFailure, Response(500, body), Response(200, Parsed(Body(Some(Listing(Items(cs))))))];
    assert TryProxy(attempts[1]).None?;
    assert TryProxy(attempts[2]) == Some(Normalise(cs));
    assert FromProxies(attempts, 1) == Ok(Normalise(cs));
  }
}
