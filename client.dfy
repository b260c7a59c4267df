/**
 * The PSREF client (client.go): one request attempt and its status
 * classification, the retry loop around it, the query a product request
 * carries, the search-based resolver, and the endpoints that tidy what they
 * decode. The network, the rate limiter's clock and the JSON decoder are an
 * oracle: the sequence of outcomes that successive attempts would meet.
 */
module Client {
  import opened Wrappers
  import opened Text
  import opened Escape
  import opened Records
  import opened Feed
  import opened Config

  // ---- Errors ----

  /** The errors the client returns. */
  datatype Failure =
    | NotFound                              // ErrNotFound
    | BadStatus(path: string, status: string)
    | WaitFailed(msg: string)               // from the rate limiter's Wait
    | TransportFailed(msg: string)          // from building or sending the request
    | DecodeFailed(msg: string)             // from the JSON decoder
    | MultipleProducts
    | MultipleModels

  /** The text of each error. */
  function Message(e: Failure): (m: string)
    ensures e == NotFound ==> m == "not found"
    ensures e.BadStatus? ==> HasPrefix(m, e.path + ": status ") && HasSuffix(m, e.status)
    ensures e == MultipleProducts ==> m == "more than one product matched"
    ensures e == MultipleModels ==> m == "more than one model matched"
  {
    match e
    case NotFound => "not found"
    case BadStatus(path, status) => path + ": status " + status
    case WaitFailed(msg) => msg
    case TransportFailed(msg) => msg
    case DecodeFailed(msg) => msg
    case MultipleProducts => "more than one product matched"
    case MultipleModels => "more than one model matched"
  }

  // ---- One attempt ----

  /** What the transport gives back: an error, or a status line and the decoded body. */
  datatype Reply<T> =
    | TransportError(msg: string)
    | Response(status: int, statusText: string, body: Result<T, string>)

  /** What one attempt meets: the limiter's wait (an error or none) and then the reply. */
  datatype Outcome<T> = Outcome(wait: Option<string>, reply: Reply<T>)

  /** The request an attempt sends: base URL and path, and the query before encoding. */
  datatype Request = Request(target: string, query: map<string, string>)

  /**
   * getOnce's result. With a limiter, a failed wait ends the attempt before
   * anything is sent; 404 is ErrNotFound, any other status but 200 is an
   * error naming the path and the status, and only 200 reaches the decoder.
   */
  function Once<T>(limited: bool, path: string, o: Outcome<T>): (r: Result<T, Failure>)
    ensures limited && o.wait.Some? ==> r == Err(WaitFailed(o.wait.value))
    ensures r == Err(NotFound) <==> !(limited && o.wait.Some?) && o.reply.Response? && o.reply.status == 404
    ensures r.Ok? <==> !(limited && o.wait.Some?) && o.reply.Response? && o.reply.status == 200 && o.reply.body.Ok?
    ensures r.Ok? ==> r.value == o.reply.body.value
    ensures !(limited && o.wait.Some?) && o.reply.Response? && o.reply.status != 404 && o.reply.status != 200 ==>
      r == Err(BadStatus(path, o.reply.statusText))
  {
    if limited && o.wait.Some? then Err(WaitFailed(o.wait.value))
    else match o.reply
      case TransportError(msg) => Err(TransportFailed(msg))
      case Response(status, text, body) =>
        if status == 404 then Err(NotFound)
        else if status != 200 then Err(BadStatus(path, text))
        else match body
          case Ok(v) => Ok(v)
          case Err(msg) => Err(DecodeFailed(msg))
  }

  /** The results that end the retry loop: success and ErrNotFound. */
  predicate Stops<T>(r: Result<T, Failure>) { r.Ok? || r == Err(NotFound) }

  /** A failed wait is an error like any other: it does not end the loop. */
  lemma WaitErrorRetried<T>(path: string, o: Outcome<T>)
    requires o.wait.Some?
    ensures !Stops(Once(true, path, o))
  {
  }

  // ---- The retry loop, as a specification ----

  /** The first attempt at or after `from` whose result ends the loop, or |outcomes| if none does. */
  function FirstStop<T>(limited: bool, path: string, outcomes: seq<Outcome<T>>, from: nat): (k: nat)
    requires from <= |outcomes|
    ensures from <= k <= |outcomes|
    ensures k < |outcomes| ==> Stops(Once(limited, path, outcomes[k]))
    ensures forall j :: from <= j < k ==> !Stops(Once(limited, path, outcomes[j]))
    decreases |outcomes| - from
  {
    if from == |outcomes| then from
    else if Stops(Once(limited, path, outcomes[from])) then from
    else FirstStop(limited, path, outcomes, from + 1)
  }

  /**
   * How many attempts get makes: one when retries is 0 or 1; otherwise up to
   * and including the first that ends the loop, but no more than `retries`
   * when that is positive.
   */
  function Attempts<T>(limited: bool, path: string, retries: int, outcomes: seq<Outcome<T>>): (n: nat)
    ensures n >= 1
    ensures retries == 0 || retries == 1 ==> n == 1
    ensures retries > 1 ==> n <= retries
    ensures retries < 0 || retries > 1 ==>
      forall j :: 0 <= j < n - 1 && j < |outcomes| ==> !Stops(Once(limited, path, outcomes[j]))
    ensures retries < 0 && n <= |outcomes| ==> Stops(Once(limited, path, outcomes[n - 1]))
    ensures retries > 1 && n <= |outcomes| && n < retries ==> Stops(Once(limited, path, outcomes[n - 1]))
  {
    if retries == 0 || retries == 1 then 1
    else
      var k := FirstStop(limited, path, outcomes, 0);
      if retries > 1 && k + 1 > retries then retries else k + 1
  }

  /** The oracle answers every attempt the loop makes. */
  predicate Covers<T>(limited: bool, path: string, retries: int, outcomes: seq<Outcome<T>>)
  {
    Attempts(limited, path, retries, outcomes) <= |outcomes|
  }

  /** What get returns: the result of its last attempt. */
  function Retried<T>(limited: bool, path: string, retries: int, outcomes: seq<Outcome<T>>): (r: Result<T, Failure>)
    requires Covers(limited, path, retries, outcomes)
    ensures retries == 0 || retries == 1 ==> r == Once(limited, path, outcomes[0])
    ensures retries < 0 ==> Stops(r)
    ensures retries > 1 && !Stops(r) ==> Attempts(limited, path, retries, outcomes) == retries
  {
    Once(limited, path, outcomes[Attempts(limited, path, retries, outcomes) - 1])
  }

  /** With retries above 1, the first attempt that succeeds or finds nothing decides the result. */
  lemma FirstStopDecides<T>(limited: bool, path: string, retries: int, outcomes: seq<Outcome<T>>, k: nat)
    requires retries > 1 && k < retries && k < |outcomes|
    requires Stops(Once(limited, path, outcomes[k]))
    requires forall j :: 0 <= j < k ==> !Stops(Once(limited, path, outcomes[j]))
    ensures Covers(limited, path, retries, outcomes)
    ensures Attempts(limited, path, retries, outcomes) == k + 1
    ensures Retried(limited, path, retries, outcomes) == Once(limited, path, outcomes[k])
  {
  }

  /** With a negative retry count the loop runs until the first attempt that succeeds or finds nothing. */
  lemma UnboundedFirstStop<T>(limited: bool, path: string, retries: int, outcomes: seq<Outcome<T>>, k: nat)
    requires retries < 0 && k < |outcomes|
    requires Stops(Once(limited, path, outcomes[k]))
    requires forall j :: 0 <= j < k ==> !Stops(Once(limited, path, outcomes[j]))
    ensures Covers(limited, path, retries, outcomes)
    ensures Attempts(limited, path, retries, outcomes) == k + 1
    ensures Retried(limited, path, retries, outcomes) == Once(limited, path, outcomes[k])
  {
  }

  /** With retries above 1 and every attempt failing, exactly `retries` attempts are made and the last error is returned. */
  lemma AllFailLastError<T>(limited: bool, path: string, retries: int, outcomes: seq<Outcome<T>>)
    requires retries > 1 && retries <= |outcomes|
    requires forall j :: 0 <= j < retries ==> !Stops(Once(limited, path, outcomes[j]))
    ensures Covers(limited, path, retries, outcomes)
    ensures Attempts(limited, path, retries, outcomes) == retries
    ensures Retried(limited, path, retries, outcomes) == Once(limited, path, outcomes[retries - 1])
  {
  }

  /**
   * With a negative retry count, outcomes none of which succeeds or finds
   * nothing are never enough: the loop asks for one more attempt than any
   * finite sequence holds.
   */
  lemma NoStopNeverCovered<T>(limited: bool, path: string, retries: int, outcomes: seq<Outcome<T>>)
    requires retries < 0
    requires forall j :: 0 <= j < |outcomes| ==> !Stops(Once(limited, path, outcomes[j]))
    ensures FirstStop(limited, path, outcomes, 0) == |outcomes|
    ensures !Covers(limited, path, retries, outcomes)
  {
  }

  /**
   * get with a negative retry count and a cancelled context never returns:
   * every wait fails at once (or, with no limiter, every send does), no
   * attempt ends the loop, and no number of attempts is the last.
   */
  lemma CancelledUnboundedNeverEnds<T>(limited: bool, path: string, retries: int, outcomes: seq<Outcome<T>>)
    requires retries < 0
    requires forall j :: 0 <= j < |outcomes| ==>
      if limited then outcomes[j].wait.Some? else outcomes[j].reply.TransportError?
    ensures !Covers(limited, path, retries, outcomes)
  {
    forall j | 0 <= j < |outcomes|
      ensures !Stops(Once(limited, path, outcomes[j]))
    {
      if limited {
        WaitErrorRetried(path, outcomes[j]);
      }
    }
    NoStopNeverCovered(limited, path, retries, outcomes);
  }

  // ---- The query of a product request ----

  /** getModelOpts. */
  datatype ModelOpts = ModelOpts(Clsf: string, Sc: string, Qt: string, Kw: string, Page: Int64)

  /** The keys a product request can carry besides `api_v`. */
  const ModelQueryKeys: set<string> := {"clsf", "sc", "qt", "pagenumber", "kw"}

  /** getModel's query: each optional parameter is set only when it is given. */
  function ModelQuery(opts: ModelOpts): (vars: map<string, string>)
    ensures vars.Keys <= ModelQueryKeys
    ensures "clsf" in vars <==> opts.Clsf != ""
    ensures "clsf" in vars ==> vars["clsf"] == opts.Clsf
    ensures "sc" in vars <==> opts.Sc != ""
    ensures "sc" in vars ==> vars["sc"] == opts.Sc
    ensures "qt" in vars <==> opts.Qt != ""
    ensures "qt" in vars ==> vars["qt"] == opts.Qt
    ensures "pagenumber" in vars <==> opts.Page != 0
    ensures "pagenumber" in vars ==> vars["pagenumber"] == FormatInt(opts.Page)
    ensures "kw" in vars <==> opts.Kw != ""
    ensures "kw" in vars ==> vars["kw"] == opts.Kw
  {
    var v0: map<string, string> := map[];
    var v1 := if opts.Clsf != "" then v0["clsf" := opts.Clsf] else v0;
    var v2 := if opts.Sc != "" then v1["sc" := opts.Sc] else v1;
    var v3 := if opts.Qt != "" then v2["qt" := opts.Qt] else v2;
    var v4 := if opts.Page != 0 then v3["pagenumber" := FormatInt(opts.Page)] else v3;
    if opts.Kw != "" then v4["kw" := opts.Kw] else v4
  }

  /** The options ProductByID passes: none. */
  const NoModelOpts: ModelOpts := ModelOpts("", "", "", "", 0)

  /** With no optional parameter the product request carries no query of its own. */
  lemma NoModelOptsEmptyQuery()
    ensures ModelQuery(NoModelOpts) == map[]
  {
    assert ModelQuery(NoModelOpts).Keys == {};
  }

  // ---- What an attempt sends ----

  /**
   * The request getOnce sends: base URL and path, and the caller's query
   * with `api_v` set to "2" (any value the caller gave it is replaced).
   */
  function RequestTo(base: string, path: string, vars: map<string, string>): (q: Request)
    ensures q.target == base + path
    ensures "api_v" in q.query && q.query["api_v"] == ApiVersion
    ensures q.query.Keys == vars.Keys + {"api_v"}
    ensures forall k :: k in vars && k != "api_v" ==> q.query[k] == vars[k]
  {
    Request(base + path, vars["api_v" := ApiVersion])
  }

  /**
   * `sent` lists what the first |sent| attempts sent: `req` from each one,
   * except nothing from an attempt whose limited wait failed.
   */
  predicate Attempted<T>(limited: bool, req: Request, outcomes: seq<Outcome<T>>, sent: seq<Option<Request>>)
  {
    |sent| <= |outcomes|
    && forall j :: 0 <= j < |sent| ==> sent[j] == (if limited && outcomes[j].wait.Some? then None else Some(req))
  }

  // ---- The search-based resolver ----

  /** One search hit. */
  datatype SearchResult = SearchResult(ID: PID, Name: string, Models: Int64)

  /** The sum of the model counts, without Go's 64-bit wrap-around. */
  function SumModels(res: seq<SearchResult>): int
  {
    if res == [] then 0 else SumModels(res[..|res| - 1]) + res[|res| - 1].Models
  }

  /** Every hit names the same product as the first. */
  predicate OneProduct(res: seq<SearchResult>)
  {
    forall i :: 0 <= i < |res| ==> res[i].ID == res[0].ID
  }

  /**
   * productByModelCode as a specification: a search error is passed on,
   * no hit is ErrNotFound, hits for two products are an error, and
   * otherwise the product and the (wrapping) sum of the model counts.
   */
  function Resolve(search: Result<seq<SearchResult>, Failure>): Result<(PID, Int64), Failure>
  {
    match search
    case Err(e) => Err(e)
    case Ok(res) =>
      if res == [] then Err(NotFound)
      else if !OneProduct(res) then Err(MultipleProducts)
      else Ok((res[0].ID, Wrap64(SumModels(res))))
  }

  /** A single hit resolves to its product and its own model count. */
  lemma ResolveSingle(hit: SearchResult)
    ensures Resolve(Ok([hit])) == Ok((hit.ID, hit.Models))
  {
    assert [hit][..0] == [];
    assert SumModels([hit]) == hit.Models;
    assert OneProduct([hit]);
    WrapSmall(hit.Models);
  }

  /** Adding a hit for the same product adds its count; one for another product is an error. */
  lemma ResolveAppend(res: seq<SearchResult>, hit: SearchResult)
    requires Resolve(Ok(res)).Ok?
    ensures hit.ID == res[0].ID ==>
      Resolve(Ok(res + [hit])) == Ok((res[0].ID, Wrap64(Resolve(Ok(res)).value.1 + hit.Models)))
    ensures hit.ID != res[0].ID ==> Resolve(Ok(res + [hit])) == Err(MultipleProducts)
  {
    var s := res + [hit];
    assert s[..|s| - 1] == res;
    WrapAdd(SumModels(res), hit.Models);
    if hit.ID != res[0].ID {
      assert s[|s| - 1].ID != s[0].ID;
    }
  }

  /** productByModelCode: the loop over the hits, with Go's (0, 0, err) on every error. */
  method ProductByModelCodeLoop(search: Result<seq<SearchResult>, Failure>) returns (id: PID, cnt: Int64, err: Option<Failure>)
    ensures Resolve(search).Ok? ==> err.None? && (id, cnt) == Resolve(search).value
    ensures Resolve(search).Err? ==> err == Some(Resolve(search).error) && id == 0 && cnt == 0
  {
    if search.Err? {
      return 0, 0, Some(search.error);
    }
    var res := search.value;
    if |res| == 0 {
      return 0, 0, Some(NotFound);
    }
    id := res[0].ID;
    cnt := res[0].Models;
    WrapSmall(res[0].Models);
    assert res[..1][..0] == [];
    var i := 1;
    while i < |res|
      invariant 1 <= i <= |res|
      invariant OneProduct(res[..i])
      invariant id == res[0].ID && cnt == Wrap64(SumModels(res[..i]))
    {
      if id != res[i].ID {
        assert !OneProduct(res);
        return 0, 0, Some(MultipleProducts);
      }
      assert res[..i + 1][..i] == res[..i];
      WrapAdd(SumModels(res[..i]), res[i].Models);
      cnt := Wrap64(cnt + res[i].Models);
      i := i + 1;
    }
    assert res[..i] == res;
    err := None;
  }

  // ---- The client ----

  class Client {
    var http: HTTPClient
    var baseURL: string
    var rate: Option<Limiter>
    var retries: int
    var debug: Option<Writer>

    /** The client's fields as a configuration value. */
    function Current(): Settings
      reads this
    {
      Settings(http, baseURL, rate, retries, debug)
    }

    /** NewClient: the defaults, then every non-nil option in order. */
    constructor(opts: seq<Option<ClientOption>>)
      ensures Current() == Configure(Defaults(), opts)
      ensures NoTrailingSlash(Current())
    {
      var c := ApplyOptions(Defaults(), opts);
      NewClientNoTrailingSlash(opts);
      http, baseURL, rate, retries, debug := c.http, c.baseURL, c.rate, c.retries, c.debug;
    }

    /**
     * What get sends for `path` and `vars`: one entry per attempt it makes,
     * each the same request unless that attempt's wait failed.
     */
    ghost predicate Sends<T>(path: string, vars: map<string, string>, outcomes: seq<Outcome<T>>, sent: seq<Option<Request>>)
      reads this
    {
      |sent| == Attempts(rate.Some?, path, retries, outcomes)
      && Attempted(rate.Some?, RequestTo(baseURL, path, vars), outcomes, sent)
    }

    /**
     * getOnce: wait for the limiter (if there is one), then send a request
     * whose query is the caller's with `api_v` set to "2", and classify the
     * reply. Nothing is sent when the wait fails.
     */
    method GetOnce<T>(path: string, vars: map<string, string>, o: Outcome<T>) returns (r: Result<T, Failure>, sent: Option<Request>)
      ensures r == Once(rate.Some?, path, o)
      ensures sent.None? <==> rate.Some? && o.wait.Some?
      ensures sent.Some? ==> sent.value == RequestTo(baseURL, path, vars)
    {
      if rate.Some? && o.wait.Some? {
        return Err(WaitFailed(o.wait.value)), None;
      }
      var query := vars["api_v" := ApiVersion];
      sent := Some(Request(baseURL + path, query));
      match o.reply {
        case TransportError(msg) =>
          r := Err(TransportFailed(msg));
        case Response(status, text, body) =>
          if status == 404 {
            r := Err(NotFound);
          } else if status != 200 {
            r := Err(BadStatus(path, text));
          } else if body.Err? {
            r := Err(DecodeFailed(body.error));
          } else {
            r := Ok(body.value);
          }
      }
    }

    /**
     * get: one attempt when retries is 0 or 1; otherwise attempts until one
     * succeeds or finds nothing, at most `retries` of them when that is
     * positive, returning the last attempt's result.
     */
    method Get<T>(path: string, vars: map<string, string>, outcomes: seq<Outcome<T>>)
      returns (r: Result<T, Failure>, tries: nat, ghost sent: seq<Option<Request>>)
      requires Covers(rate.Some?, path, retries, outcomes)
      ensures tries == Attempts(rate.Some?, path, retries, outcomes)
      ensures r == Retried(rate.Some?, path, retries, outcomes)
      ensures |sent| == tries && Attempted(rate.Some?, RequestTo(baseURL, path, vars), outcomes, sent)
    {
      ghost var limited := rate.Some?;
      ghost var req := RequestTo(baseURL, path, vars);
      if retries == 0 || retries == 1 {
        var once;
        r, once := GetOnce(path, vars, outcomes[0]);
        return r, 1, [once];
      }
      ghost var stop := FirstStop(limited, path, outcomes, 0);
      var last: Option<Result<T, Failure>> := None;
      var try := 0;
      sent := [];
      while retries < 0 || try < retries
        invariant 0 <= try <= stop && (retries > 1 ==> try <= retries)
        invariant forall j :: 0 <= j < try ==> !Stops(Once(limited, path, outcomes[j]))
        invariant try >= 1 ==> last == Some(Once(limited, path, outcomes[try - 1]))
        invariant |sent| == try && Attempted(limited, req, outcomes, sent)
        decreases (if retries < 0 then |outcomes| else retries) - try
      {
        var res: Result<T, Failure>, once := GetOnce(path, vars, outcomes[try]);
        sent := sent + [once];
        if res.Ok? || res == Err(NotFound) {
          return res, try + 1, sent;
        }
        last := Some(res);
        try := try + 1;
      }
      return last.value, try, sent;
    }

    /** Products: the active product types, every line of every type normalized. */
    method Products(outcomes: seq<Outcome<seq<ProductType>>>)
      returns (types: seq<ProductType>, err: Option<Failure>, ghost sent: seq<Option<Request>>)
      requires Covers(rate.Some?, "/", retries, outcomes)
      modifies LinesOf(Decoded(Retried(rate.Some?, "/", retries, outcomes)))
      ensures ResultOf(types, err) == Retried(rate.Some?, "/", retries, outcomes)
      ensures err.Some? ==> types == []
      ensures forall l :: l in LinesOf(types) ==>
        l.Image == NormalizeURL(old(l.Image)) && l.Name == old(l.Name) && l.Series == old(l.Series)
      ensures Sends("/", map[], outcomes, sent)
    {
      var r, tries;
      r, tries, sent := Get("/", map[], outcomes);
      if r.Err? {
        return [], Some(r.error), sent;
      }
      types, err := r.value, None;
      NormalizeTypes(types);
    }

    /** WithdrawnProducts: the withdrawn product types, rebuilt without a colour and normalized. */
    method WithdrawnProducts(outcomes: seq<Outcome<seq<WithdrawnType>>>)
      returns (types: seq<ProductType>, err: Option<Failure>, ghost sent: seq<Option<Request>>)
      requires Covers(rate.Some?, WithdrawnPath, retries, outcomes)
      modifies WithdrawnLines(Decoded(Retried(rate.Some?, WithdrawnPath, retries, outcomes)))
      ensures var r := Retried(rate.Some?, WithdrawnPath, retries, outcomes);
        r.Err? ==> err == Some(r.error) && types == []
      ensures var r := Retried(rate.Some?, WithdrawnPath, retries, outcomes);
        r.Ok? ==> err.None? && |types| == |r.value|
      ensures var r := Retried(rate.Some?, WithdrawnPath, retries, outcomes);
        r.Ok? ==> forall i :: 0 <= i < |types| && i < |r.value| ==>
          types[i] == ProductType(r.value[i].Name, "", r.value[i].Lineup)
      ensures forall l :: l in LinesOf(types) ==>
        l.Image == NormalizeURL(old(l.Image)) && l.Name == old(l.Name) && l.Series == old(l.Series)
      ensures Sends(WithdrawnPath, map[], outcomes, sent)
    {
      var r, tries;
      r, tries, sent := Get(WithdrawnPath, map[], outcomes);
      if r.Err? {
        return [], Some(r.error), sent;
      }
      types := Rebuild(r.value);
      err := None;
      NormalizeTypes(types);
    }

    /** Updates: the change feed, parsed in place when the reply holds one. */
    method Updates(outcomes: seq<Outcome<Updates?>>)
      returns (upd: Updates?, err: Option<Failure>, ghost sent: seq<Option<Request>>)
      requires Covers(rate.Some?, UpdatesPath, retries, outcomes)
      modifies FeedOf(Retried(rate.Some?, UpdatesPath, retries, outcomes))
      ensures ResultOf(upd, err) == Retried(rate.Some?, UpdatesPath, retries, outcomes)
      ensures err.Some? ==> upd == null
      ensures upd != null ==> upd.VersionTitle == CleanTitle(old(upd.VersionTitle))
      ensures upd != null ==> upd.Version == NewVersion(upd.VersionTitle, old(upd.Version))
      ensures upd != null ==> upd.VersionTS == NewStamp(upd.VersionTitle, old(upd.VersionTS))
      ensures upd != null ==> (|upd.Updated| == |old(upd.Updated)|
        && forall j :: 0 <= j < |upd.Updated| ==> upd.Updated[j] == SplitReason(old(upd.Updated)[j]))
      ensures upd != null ==> upd.New == old(upd.New) && upd.Withdrawn == old(upd.Withdrawn)
      ensures Sends(UpdatesPath, map[], outcomes, sent)
    {
      var r, tries;
      r, tries, sent := Get(UpdatesPath, map[], outcomes);
      if r.Err? {
        return null, Some(r.error), sent;
      }
      upd, err := r.value, None;
      ParseFeed(upd);
    }

    /**
     * getModel: the product record at its path with the given query; a
     * product in the reply has its image URL unescaped and then normalized.
     */
    method GetModel(pid: PID, opts: ModelOpts, outcomes: seq<Outcome<Product?>>)
      returns (p: Product?, err: Option<Failure>, ghost sent: seq<Option<Request>>)
      requires Covers(rate.Some?, ProductPath(pid), retries, outcomes)
      modifies ProductOf(Retried(rate.Some?, ProductPath(pid), retries, outcomes))
      ensures ResultOf(p, err) == Retried(rate.Some?, ProductPath(pid), retries, outcomes)
      ensures err.Some? ==> p == null
      ensures p != null ==> NormalizedFrom(p, UnescapeImage(old(p.Image)))
      ensures Sends(ProductPath(pid), ModelQuery(opts), outcomes, sent)
    {
      var vars := ModelQuery(opts);
      var r, tries;
      r, tries, sent := Get(ProductPath(pid), vars, outcomes);
      if r.Err? {
        return null, Some(r.error), sent;
      }
      p, err := r.value, None;
      if p != null {
        p.Image := UnescapeImage(p.Image);
        p.Normalize();
      }
    }

    /** ProductByID: getModel with no optional parameters. */
    method ProductByID(id: PID, outcomes: seq<Outcome<Product?>>)
      returns (p: Product?, err: Option<Failure>, ghost sent: seq<Option<Request>>)
      requires Covers(rate.Some?, ProductPath(id), retries, outcomes)
      modifies ProductOf(Retried(rate.Some?, ProductPath(id), retries, outcomes))
      ensures ResultOf(p, err) == Retried(rate.Some?, ProductPath(id), retries, outcomes)
      ensures err.Some? ==> p == null
      ensures p != null ==> NormalizedFrom(p, UnescapeImage(old(p.Image)))
      ensures Sends(ProductPath(id), map[], outcomes, sent)
    {
      p, err, sent := GetModel(id, NoModelOpts, outcomes);
      NoModelOptsEmptyQuery();
    }

    /**
     * ProductByModelCode: resolve the code through the search results, then
     * fetch that product; a resolver error is returned without a request.
     */
    method ProductByModelCode(search: Result<seq<SearchResult>, Failure>, outcomes: seq<Outcome<Product?>>)
      returns (p: Product?, err: Option<Failure>, ghost sent: seq<Option<Request>>)
      requires Resolve(search).Ok? ==> Covers(rate.Some?, ProductPath(Resolve(search).value.0), retries, outcomes)
      modifies if Resolve(search).Err? then {}
        else ProductOf(Retried(rate.Some?, ProductPath(Resolve(search).value.0), retries, outcomes))
      ensures Resolve(search).Err? ==> p == null && err == Some(Resolve(search).error)
      ensures Resolve(search).Ok? ==>
        ResultOf(p, err) == Retried(rate.Some?, ProductPath(Resolve(search).value.0), retries, outcomes)
      ensures err.Some? ==> p == null
      ensures p != null ==> NormalizedFrom(p, UnescapeImage(old(p.Image)))
      ensures Resolve(search).Err? ==> sent == []
      ensures Resolve(search).Ok? ==> Sends(ProductPath(Resolve(search).value.0), map[], outcomes, sent)
    {
      var pid, models, e := ProductByModelCodeLoop(search);
      if e.Some? {
        return null, e, [];
      }
      p, err, sent := ProductByID(pid, outcomes);
    }

    /**
     * ModelByID: the model record at its path; a model in the reply gets the
     * requested code and has its product's fields normalized. Its own RefURL
     * is not touched, and no image is unescaped.
     */
    method ModelByID(id: PID, code: string, outcomes: seq<Outcome<Model?>>)
      returns (m: Model?, err: Option<Failure>, ghost sent: seq<Option<Request>>)
      requires Covers(rate.Some?, ModelPath(id, code), retries, outcomes)
      modifies ModelOf(Retried(rate.Some?, ModelPath(id, code), retries, outcomes))
      ensures ResultOf(m, err) == Retried(rate.Some?, ModelPath(id, code), retries, outcomes)
      ensures err.Some? ==> m == null
      ensures m != null ==> m.Code == code && m.RefURL == old(m.RefURL) && m.Detail == old(m.Detail)
      ensures m != null ==> m.WithdrawnStatus == old(m.WithdrawnStatus)
      ensures m != null ==> NormalizedFrom(m.product, old(m.product.Image))
      ensures Sends(ModelPath(id, code), map[], outcomes, sent)
    {
      var r, tries;
      r, tries, sent := Get(ModelPath(id, code), map[], outcomes);
      if r.Err? {
        return null, Some(r.error), sent;
      }
      m, err := r.value, None;
      if m != null {
        m.Code := code;
        m.product.Normalize();
      }
    }

    /**
     * ModelByCode: resolve the code through the search results; more than
     * one model in total is an error, otherwise the model is fetched by ID.
     */
    method ModelByCode(code: string, search: Result<seq<SearchResult>, Failure>, outcomes: seq<Outcome<Model?>>)
      returns (m: Model?, err: Option<Failure>, ghost sent: seq<Option<Request>>)
      requires ResolvesToOne(search) ==> Covers(rate.Some?, ModelPath(Resolve(search).value.0, code), retries, outcomes)
      modifies if !ResolvesToOne(search) then {}
        else ModelOf(Retried(rate.Some?, ModelPath(Resolve(search).value.0, code), retries, outcomes))
      ensures Resolve(search).Err? ==> m == null && err == Some(Resolve(search).error)
      ensures Resolve(search).Ok? && Resolve(search).value.1 > 1 ==> m == null && err == Some(MultipleModels)
      ensures ResolvesToOne(search) ==>
        ResultOf(m, err) == Retried(rate.Some?, ModelPath(Resolve(search).value.0, code), retries, outcomes)
      ensures err.Some? ==> m == null
      ensures m != null ==> m.Code == code && m.RefURL == old(m.RefURL) && m.Detail == old(m.Detail)
      ensures m != null ==> m.WithdrawnStatus == old(m.WithdrawnStatus)
      ensures m != null ==> NormalizedFrom(m.product, old(m.product.Image))
      ensures !ResolvesToOne(search) ==> sent == []
      ensures ResolvesToOne(search) ==> Sends(ModelPath(Resolve(search).value.0, code), map[], outcomes, sent)
    {
      var pid, models, e := ProductByModelCodeLoop(search);
      if e.Some? {
        return null, e, [];
      } else if models > 1 {
        return null, Some(MultipleModels), [];
      }
      m, err, sent := ModelByID(pid, code, outcomes);
    }
  }

  /** NewClient's loop over its options, on a configuration value. */
  method ApplyOptions(c: Settings, opts: seq<Option<ClientOption>>) returns (r: Settings)
    ensures r == Configure(c, opts)
  {
    r := c;
    var i := 0;
    while i < |opts|
      invariant 0 <= i <= |opts|
      invariant Configure(c, opts) == Configure(r, opts[i..])
    {
      if opts[i].Some? {
        r := Apply(r, opts[i].value);
      }
      assert opts[i..][1..] == opts[i + 1..];
      i := i + 1;
    }
  }

  // ---- Endpoint paths and what a reply hands over ----

  const WithdrawnPath: string := "/psref/mobile/withdrawproducts"

  const UpdatesPath: string := "/psref/mobile/new"

  /** The product endpoint: the ID in decimal after the prefix, so the ID reads back from the path. */
  function ProductPath(pid: PID): (p: string)
    ensures |p| > 22 && p[..22] == "/psref/mobile/product/"
    ensures AllDigits(p[22..]) && ParseUint64(p[22..]) == Some(pid)
  {
    var p := "/psref/mobile/product/" + DecimalString(pid);
    DecimalRoundTrip(pid);
    assert p[22..] == DecimalString(pid);
    p
  }

  /** The model endpoint: prefix, decimal ID and code joined by `/`; ID and code read back from the path. */
  function ModelPath(id: PID, code: string): (p: string)
    ensures |p| > 21 + |code| && p[..20] == "/psref/mobile/Model/"
    ensures p[|p| - |code| - 1..] == "/" + code
    ensures AllDigits(p[20..|p| - |code| - 1]) && ParseUint64(p[20..|p| - |code| - 1]) == Some(id)
  {
    var d := DecimalString(id);
    var p := "/psref/mobile/Model" + "/" + d + "/" + code;
    DecimalRoundTrip(id);
    assert p[20..|p| - |code| - 1] == d;
    assert p[|p| - |code| - 1..] == "/" + code;
    p
  }

  /** A Go (value, error) pair as a result: the error wins when there is one. */
  function ResultOf<T>(v: T, err: Option<Failure>): Result<T, Failure>
  {
    if err.Some? then Err(err.value) else Ok(v)
  }

  function Decoded<T>(r: Result<seq<T>, Failure>): seq<T>
  {
    if r.Ok? then r.value else []
  }

  function FeedOf(r: Result<Updates?, Failure>): set<Updates>
  {
    if r.Ok? && r.value != null then {r.value} else {}
  }

  function ProductOf(r: Result<Product?, Failure>): set<Product>
  {
    if r.Ok? && r.value != null then {r.value} else {}
  }

  function ModelOf(r: Result<Model?, Failure>): set<object>
  {
    if r.Ok? && r.value != null then {r.value, r.value.product} else {}
  }

  /** The search resolves to a product with at most one model. */
  predicate ResolvesToOne(search: Result<seq<SearchResult>, Failure>)
  {
    Resolve(search).Ok? && Resolve(search).value.1 <= 1
  }

  // ---- Normalizing lists of product types ----

  /** A withdrawn product type as the endpoint sends it: a name and a lineup, no colour. */
  datatype WithdrawnType = WithdrawnType(Name: string, Lineup: seq<ProductLine>)

  function WithdrawnLines(types: seq<WithdrawnType>): set<ProductLine>
  {
    set i, l | 0 <= i < |types| && l in types[i].Lineup :: l
  }

  /** WithdrawnProducts' loop: each withdrawn type becomes a product type with the same name and lineup. */
  method Rebuild(resp: seq<WithdrawnType>) returns (out: seq<ProductType>)
    ensures |out| == |resp|
    ensures forall i :: 0 <= i < |out| ==> out[i] == ProductType(resp[i].Name, "", resp[i].Lineup)
    ensures LinesOf(out) == WithdrawnLines(resp)
  {
    out := [];
    var i := 0;
    while i < |resp|
      invariant 0 <= i <= |resp| && |out| == i
      invariant forall j :: 0 <= j < i ==> out[j] == ProductType(resp[j].Name, "", resp[j].Lineup)
    {
      out := out + [ProductType(resp[i].Name, "", resp[i].Lineup)];
      i := i + 1;
    }
  }

  /** Products' loop: every type's lineup normalized, lines shared between types included. */
  method NormalizeTypes(types: seq<ProductType>)
    modifies LinesOf(types)
    ensures forall l :: l in LinesOf(types) ==>
      l.Image == NormalizeURL(old(l.Image)) && l.Name == old(l.Name) && l.Series == old(l.Series)
  {
    var i := 0;
    while i < |types|
      invariant 0 <= i <= |types|
      invariant forall l :: l in LinesOf(types) ==> l.Name == old(l.Name) && l.Series == old(l.Series)
      invariant forall l :: l in LinesOf(types) ==>
        l.Image == if InLineups(types, i, l) then NormalizeURL(old(l.Image)) else old(l.Image)
    {
      NormalizeType(types[i]);
      forall l | l in types[i].Lineup
        ensures NormalizeURL(NormalizeURL(old(l.Image))) == NormalizeURL(old(l.Image))
      {
        NormalizeURLIdempotent(old(l.Image));
      }
      i := i + 1;
    }
  }

  /** The line is in the lineup of one of the first `i` types. */
  predicate InLineups(types: seq<ProductType>, i: nat, l: ProductLine)
  {
    exists j :: 0 <= j < i && j < |types| && l in types[j].Lineup
  }
}
