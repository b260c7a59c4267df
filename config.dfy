/**
 * Client configuration (client.go): the defaults NewClient starts from and
 * the functional options it applies in order. The options are values here;
 * applying one is a function from configuration to configuration.
 */
module Config {
  import opened Wrappers
  import opened Text

  /** The API version every request carries as `api_v`. */
  const ApiVersion: string := "2"

  const DefaultRetries: int := 3

  /** time.Second / 3 in nanoseconds (Go's integer division). */
  const DefaultRateInterval: nat := 1_000_000_000 / 3

  const DefaultRateBurst: nat := 10

  const DefaultURL: string := "http://104.232.254.26:8081"

  /** Which *http.Client sends the requests: http.DefaultClient or one the caller supplies. */
  datatype HTTPClient = DefaultClient | CustomClient(id: nat)

  /** A token-bucket limiter built from rate.Every(interval) and a burst size. */
  datatype Limiter = Limiter(interval: nat, burst: nat)

  /** An io.Writer the caller supplies for the debug dump. */
  datatype Writer = Writer(id: nat)

  /** The fields of a Client. */
  datatype Settings = Settings(
    http: HTTPClient, baseURL: string, rate: Option<Limiter>, retries: int, debug: Option<Writer>)

  /** What NewClient starts from before any option is applied. */
  function Defaults(): (c: Settings)
    ensures c.http == DefaultClient && c.baseURL == DefaultURL && c.retries == DefaultRetries
    ensures c.rate == Some(Limiter(333_333_333, 10)) && c.debug.None?
  {
    Settings(DefaultClient, DefaultURL, Some(Limiter(DefaultRateInterval, DefaultRateBurst)), DefaultRetries, None)
  }

  /** A ClientOption: each one sets one field when applied. */
  datatype ClientOption =
    | SetHTTPClient(cli: HTTPClient)
    | SetBaseURL(url: string)
    | SetDebug(w: Option<Writer>)
    | SetRetries(retries: int)
    | SetRate(rate: Option<Limiter>)

  /** WithHTTPClient: a nil client stands for http.DefaultClient. */
  function WithHTTPClient(cli: Option<HTTPClient>): (o: ClientOption)
    ensures cli.None? ==> o == SetHTTPClient(DefaultClient)
    ensures cli.Some? ==> o == SetHTTPClient(cli.value)
  {
    SetHTTPClient(if cli.None? then DefaultClient else cli.value)
  }

  /** WithBaseURL: the empty string stands for the default URL; trimming happens when the option is applied. */
  function WithBaseURL(url: string): (o: ClientOption)
    ensures o.SetBaseURL? && o.url != ""
    ensures url != "" ==> o.url == url
  {
    SetBaseURL(if url == "" then DefaultURL else url)
  }

  /** One option applied to a configuration; every other field keeps its value. */
  function Apply(c: Settings, o: ClientOption): Settings
  {
    match o
    case SetHTTPClient(cli) => c.(http := cli)
    case SetBaseURL(url) => c.(baseURL := TrimRight(url, '/'))
    case SetDebug(w) => c.(debug := w)
    case SetRetries(n) => c.(retries := n)
    case SetRate(l) => c.(rate := l)
  }

  /** NewClient's loop: options in order, nil options skipped. */
  function Configure(c: Settings, opts: seq<Option<ClientOption>>): Settings
    decreases |opts|
  {
    if opts == [] then c
    else Configure(if opts[0].None? then c else Apply(c, opts[0].value), opts[1..])
  }

  /** Applying a list of options is applying its first part, then its second. */
  lemma {:induction false} ConfigureAppend(c: Settings, a: seq<Option<ClientOption>>, b: seq<Option<ClientOption>>)
    ensures Configure(c, a + b) == Configure(Configure(c, a), b)
    decreases |a|
  {
    if a == [] {
      assert a + b == b;
    } else {
      assert (a + b)[1..] == a[1..] + b;
      ConfigureAppend(if a[0].None? then c else Apply(c, a[0].value), a[1..], b);
    }
  }

  /** A nil option anywhere in the list changes nothing. */
  lemma NilOptionSkipped(c: Settings, a: seq<Option<ClientOption>>, b: seq<Option<ClientOption>>)
    ensures Configure(c, a + [None] + b) == Configure(c, a + b)
  {
    ConfigureAppend(c, a + [None], b);
    ConfigureAppend(c, a, [None]);
    ConfigureAppend(c, a, b);
  }

  /** The option sets the retry count. */
  predicate SetsRetries(o: Option<ClientOption>) { o.Some? && o.value.SetRetries? }

  /** Options that do not set the retry count leave it alone. */
  lemma {:induction false} RetriesKept(c: Settings, opts: seq<Option<ClientOption>>)
    requires forall j :: 0 <= j < |opts| ==> !SetsRetries(opts[j])
    ensures Configure(c, opts).retries == c.retries
    decreases |opts|
  {
    if opts != [] {
      RetriesKept(if opts[0].None? then c else Apply(c, opts[0].value), opts[1..]);
    }
  }

  /** Later options win: the retry count is the one the last WithRetry gave. */
  lemma LastRetryWins(c: Settings, opts: seq<Option<ClientOption>>, i: nat)
    requires i < |opts| && SetsRetries(opts[i])
    requires forall j :: i < j < |opts| ==> !SetsRetries(opts[j])
    ensures Configure(c, opts).retries == opts[i].value.retries
  {
    var a, b := opts[..i + 1], opts[i + 1..];
    assert opts == a + b;
    ConfigureAppend(c, a, b);
    ConfigureAppend(c, opts[..i], [opts[i]]);
    assert opts[..i] + [opts[i]] == a;
    RetriesKept(Configure(c, a), b);
  }

  /** No configuration NewClient can build has a base URL ending in `/`. */
  predicate NoTrailingSlash(c: Settings) { c.baseURL == [] || c.baseURL[|c.baseURL| - 1] != '/' }

  lemma {:induction false} ConfigureKeepsNoTrailingSlash(c: Settings, opts: seq<Option<ClientOption>>)
    requires NoTrailingSlash(c)
    ensures NoTrailingSlash(Configure(c, opts))
    decreases |opts|
  {
    if opts != [] {
      ConfigureKeepsNoTrailingSlash(if opts[0].None? then c else Apply(c, opts[0].value), opts[1..]);
    }
  }

  lemma NewClientNoTrailingSlash(opts: seq<Option<ClientOption>>)
    ensures NoTrailingSlash(Configure(Defaults(), opts))
  {
    assert DefaultURL[|DefaultURL| - 1] == '1';
    ConfigureKeepsNoTrailingSlash(Defaults(), opts);
  }

  /** WithBaseURL("") restores the default URL, which has no slash to trim. */
  lemma EmptyBaseURLIsDefault(c: Settings)
    ensures Apply(c, WithBaseURL("")).baseURL == DefaultURL
  {
    assert DefaultURL[|DefaultURL| - 1] == '1';
  }

  /** Trailing slashes on the URL given to WithBaseURL are all dropped. */
  lemma TrailingSlashesDropped(c: Settings, url: string, k: nat)
    requires url != [] && url[|url| - 1] != '/'
    ensures Apply(c, WithBaseURL(url + Slashes(k))).baseURL == url
  {
    var s := url + Slashes(k);
    var r := TrimRight(s, '/');
    assert s[|url| - 1] == url[|url| - 1];
    assert forall j :: |url| <= j < |s| ==> s[j] == Slashes(k)[j - |url|];
    assert |r| == |url|;
    assert r == s[..|url|] == url;
  }

  /** `k` slashes. */
  function Slashes(k: nat): (s: string)
    ensures |s| == k && forall j :: 0 <= j < k ==> s[j] == '/'
  {
    seq(k, j => '/')
  }
}
