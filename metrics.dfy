// The metrics route's in-memory store: time windows over the recorded
// requests, URL analyses and errors, the per-service daily call counters,
// and the `POST` handler that dispatches on the recorded action.

module Metrics {
  import opened Text

  // ---------------------------------------------------------------------
  // Records and time windows

  /** A record with the time (milliseconds) at which it was stored. */
  datatype Stamped<R> = Stamped(timestamp: int, record: R)

  datatype RequestRecord = RequestRecord(duration: int, success: bool, error: Option<string>)
  datatype AnalysisRecord = AnalysisRecord(url: string, userId: Option<string>)
  datatype ErrorRecord = ErrorRecord(kind: string, message: string)

  const HOUR: int := 60 * 60 * 1000
  const DAY: int := 24 * HOUR
  const WEEK: int := 7 * DAY

  /** `filter(x => x.timestamp > cutoff)`: the records newer than the cutoff, in order. */
  function Since<R>(s: seq<Stamped<R>>, cutoff: int): (r: seq<Stamped<R>>)
    ensures forall i | 0 <= i < |r| :: r[i] in s && r[i].timestamp > cutoff
    ensures forall i | 0 <= i < |s| && s[i].timestamp > cutoff :: s[i] in r
    ensures |r| <= |s|
  {
    if |s| == 0 then []
    else
      var rest := Since(s[..|s| - 1], cutoff);
      var x := s[|s| - 1];
      assert forall i | 0 <= i < |s| - 1 :: s[..|s| - 1][i] == s[i];
      if x.timestamp > cutoff then rest + [x] else rest
  }

  /** Filtering a concatenation filters each part. */
  lemma {:induction false} SinceAppend<R>(s: seq<Stamped<R>>, t: seq<Stamped<R>>, cutoff: int)
    ensures Since(s + t, cutoff) == Since(s, cutoff) + Since(t, cutoff)
    decreases |t|
  {
    if |t| == 0 {
      assert s + t == s;
    } else {
      assert (s + t)[..|s + t| - 1] == s + t[..|t| - 1];
      SinceAppend(s, t[..|t| - 1], cutoff);
    }
  }

  /** Records all newer than the cutoff are kept whole. */
  lemma {:induction false} SinceAllNewer<R>(s: seq<Stamped<R>>, cutoff: int)
    requires forall i | 0 <= i < |s| :: s[i].timestamp > cutoff
    ensures Since(s, cutoff) == s
  {
    if |s| > 0 {
      SinceAllNewer(s[..|s| - 1], cutoff);
      assert s[..|s| - 1] + [s[|s| - 1]] == s;
    }
  }

  /** Two prunings in a row are one pruning at the later cutoff. */
  lemma {:induction false} SinceTwice<R>(s: seq<Stamped<R>>, a: int, b: int)
    ensures Since(Since(s, a), b) == Since(s, Max(a, b))
  {
    if |s| > 0 {
      var p := s[..|s| - 1];
      var x := s[|s| - 1];
      SinceTwice(p, a, b);
      if x.timestamp > a {
        SinceAppend(Since(p, a), [x], b);
        assert [x][..0] == [];
      }
    }
  }

  /**
   * Storing a record stamped `now` and pruning to a window ending at `now`:
   * the new record is the last one kept, after the older records still in
   * the window, in their order.
   */
  lemma AppendedIsNewest<R>(s: seq<Stamped<R>>, x: Stamped<R>, width: int)
    requires width > 0
    ensures var r := Since(s + [x], x.timestamp - width);
      r == Since(s, x.timestamp - width) + [x] && r[|r| - 1] == x
  {
    SinceAppend(s, [x], x.timestamp - width);
    assert [x][..0] == [];
  }

  // ---------------------------------------------------------------------
  // Daily API call counters

  datatype Api = VirusTotal | GoogleSafeBrowsing

  datatype ApiStatus = Available | Unavailable | RateLimited

  /** `today` calls since `lastReset`. */
  datatype CallCounter = CallCounter(today: nat, lastReset: int)

  /** The daily quota assumed for each service. */
  function DailyLimit(api: Api): nat
  {
    match api
    case VirusTotal => 1000
    case GoogleSafeBrowsing => 10000
  }

  /**
   * One counted call at `now`: a counter last reset more than a day ago
   * starts over at `now`; the call is then counted.
   */
  function Counted(c: CallCounter, now: int): (r: CallCounter)
    ensures r.today >= 1 && r.lastReset >= now - DAY
    ensures r.lastReset >= c.lastReset || r.lastReset == now
    ensures c.lastReset >= now - DAY ==> r.today == c.today + 1 && r.lastReset == c.lastReset
    ensures c.lastReset < now - DAY ==> r.today == 1 && r.lastReset == now
  {
    var c' := if c.lastReset < now - DAY then CallCounter(0, now) else c;
    c'.(today := c'.today + 1)
  }

  /**
   * `getApiStatus`: no usable key (absent or empty) makes the service
   * unavailable; otherwise it is rate limited once today's calls reach the
   * daily limit.
   */
  function StatusOf(api: Api, c: CallCounter, apiKey: Option<string>): (status: ApiStatus)
    ensures status == Unavailable <==> apiKey.None? || apiKey.value == ""
    ensures status == RateLimited <==> apiKey.Some? && apiKey.value != "" && c.today >= DailyLimit(api)
    ensures status == Available <==> apiKey.Some? && apiKey.value != "" && c.today < DailyLimit(api)
  {
    if apiKey.None? || apiKey.value == "" then Unavailable
    else if c.today >= DailyLimit(api) then RateLimited
    else Available
  }

  // ---------------------------------------------------------------------
  // Cache hit rate

  /** The URLs among the recorded analyses, as a set. */
  function UrlSet(analyses: seq<Stamped<AnalysisRecord>>): set<string>
  {
    if |analyses| == 0 then {}
    else UrlSet(analyses[..|analyses| - 1]) + {analyses[|analyses| - 1].record.url}
  }

  /** There are at least one and at most as many distinct URLs as analyses. */
  lemma {:induction false} UrlSetSize(analyses: seq<Stamped<AnalysisRecord>>)
    ensures |UrlSet(analyses)| <= |analyses|
    ensures |analyses| > 0 ==> |UrlSet(analyses)| >= 1
  {
    if |analyses| > 0 {
      var p := analyses[..|analyses| - 1];
      UrlSetSize(p);
      var u := analyses[|analyses| - 1].record.url;
      assert u in UrlSet(analyses);
      if u in UrlSet(p) {
        assert UrlSet(analyses) == UrlSet(p);
      }
    }
  }

  /** Analyses of pairwise different URLs have as many distinct URLs as entries. */
  lemma {:induction false} UrlSetOfDistinct(analyses: seq<Stamped<AnalysisRecord>>)
    requires forall i, j | 0 <= i < j < |analyses| :: analyses[i].record.url != analyses[j].record.url
    ensures |UrlSet(analyses)| == |analyses|
  {
    if |analyses| > 0 {
      var p := analyses[..|analyses| - 1];
      var u := analyses[|analyses| - 1].record.url;
      UrlSetOfDistinct(p);
      UrlSetMembers(p, u);
      assert u !in UrlSet(p);
    }
  }

  lemma {:induction false} UrlSetMembers(analyses: seq<Stamped<AnalysisRecord>>, u: string)
    ensures u in UrlSet(analyses) <==> exists i | 0 <= i < |analyses| :: analyses[i].record.url == u
  {
    if |analyses| > 0 {
      var p := analyses[..|analyses| - 1];
      UrlSetMembers(p, u);
      if u in UrlSet(p) {
        var i :| 0 <= i < |p| && p[i].record.url == u;
        assert analyses[i].record.url == u;
      }
      if exists i | 0 <= i < |analyses| :: analyses[i].record.url == u {
        var i :| 0 <= i < |analyses| && analyses[i].record.url == u;
        if i < |p| {
          assert p[i].record.url == u;
        }
      }
    }
  }

  /**
   * `Math.round(part / whole * 100)`, computed exactly: the nearest whole
   * percentage, halves rounded up.
   */
  function RoundedPercent(part: nat, whole: nat): (r: nat)
    requires part <= whole && whole > 0
    ensures r <= 100
    ensures (2 * r - 1) * whole <= 200 * part < (2 * r + 1) * whole
  {
    var n, d := 200 * part + whole, 2 * whole;
    var r := n / d;
    DivisionBounds(n, d, r, n % d);
    r
  }

  /** The quotient `q` of `n` by `d = 2 * w` brackets `n - w` between odd multiples of `w`. */
  lemma DivisionBounds(n: nat, d: nat, q: nat, m: nat)
    requires d > 0 && d % 2 == 0 && n == d * q + m && m < d && n <= 101 * d - d / 2
    ensures (2 * q - 1) * (d / 2) <= n - d / 2 < (2 * q + 1) * (d / 2)
    ensures q <= 100
  {
    var w := d / 2;
    assert d * q == 2 * q * w;
  }

  // ---------------------------------------------------------------------
  // The store

  /**
   * `MetricsStore`: the three record lists, each reassigned after every
   * push to the records still inside its window, and one call counter per
   * service.
   */
  class MetricsStore {
    var requests: seq<Stamped<RequestRecord>>
    var urlAnalysis: seq<Stamped<AnalysisRecord>>
    var errors: seq<Stamped<ErrorRecord>>
    var virusTotal: CallCounter
    var googleSafeBrowsing: CallCounter

    /** A fresh store: nothing recorded, both counters at zero, reset at `now`. */
    constructor(now: int)
      ensures requests == [] && urlAnalysis == [] && errors == []
      ensures virusTotal == CallCounter(0, now) && googleSafeBrowsing == CallCounter(0, now)
    {
      requests := [];
      urlAnalysis := [];
      errors := [];
      virusTotal := CallCounter(0, now);
      googleSafeBrowsing := CallCounter(0, now);
    }

    /** `this.apiCalls[api]` */
    function Calls(api: Api): CallCounter
      reads this
    {
      match api
      case VirusTotal => virusTotal
      case GoogleSafeBrowsing => googleSafeBrowsing
    }

    /** `addRequest`: record the request at `now`, keep the last 24 hours. */
    method AddRequest(duration: int, success: bool, error: Option<string>, now: int)
      modifies this
      ensures requests == Since(old(requests) + [Stamped(now, RequestRecord(duration, success, error))], now - DAY)
      ensures requests == Since(old(requests), now - DAY) + [Stamped(now, RequestRecord(duration, success, error))]
      ensures urlAnalysis == old(urlAnalysis) && errors == old(errors)
      ensures virusTotal == old(virusTotal) && googleSafeBrowsing == old(googleSafeBrowsing)
    {
      AppendedIsNewest(requests, Stamped(now, RequestRecord(duration, success, error)), DAY);
      requests := requests + [Stamped(now, RequestRecord(duration, success, error))];
      requests := Since(requests, now - DAY);
    }

    /** `addUrlAnalysis`: record the analysis at `now`, keep the last 7 days. */
    method AddUrlAnalysis(url: string, userId: Option<string>, now: int)
      modifies this
      ensures urlAnalysis == Since(old(urlAnalysis) + [Stamped(now, AnalysisRecord(url, userId))], now - WEEK)
      ensures urlAnalysis == Since(old(urlAnalysis), now - WEEK) + [Stamped(now, AnalysisRecord(url, userId))]
      ensures requests == old(requests) && errors == old(errors)
      ensures virusTotal == old(virusTotal) && googleSafeBrowsing == old(googleSafeBrowsing)
    {
      AppendedIsNewest(urlAnalysis, Stamped(now, AnalysisRecord(url, userId)), WEEK);
      urlAnalysis := urlAnalysis + [Stamped(now, AnalysisRecord(url, userId))];
      urlAnalysis := Since(urlAnalysis, now - WEEK);
    }

    /** `addError`: record the error at `now`, keep the last 24 hours. */
    method AddError(kind: string, message: string, now: int)
      modifies this
      ensures errors == Since(old(errors) + [Stamped(now, ErrorRecord(kind, message))], now - DAY)
      ensures errors == Since(old(errors), now - DAY) + [Stamped(now, ErrorRecord(kind, message))]
      ensures requests == old(requests) && urlAnalysis == old(urlAnalysis)
      ensures virusTotal == old(virusTotal) && googleSafeBrowsing == old(googleSafeBrowsing)
    {
      AppendedIsNewest(errors, Stamped(now, ErrorRecord(kind, message)), DAY);
      errors := errors + [Stamped(now, ErrorRecord(kind, message))];
      errors := Since(errors, now - DAY);
    }

    /** `incrementApiCall`: count one call of `api` at `now`; the other service's counter stays. */
    method IncrementApiCall(api: Api, now: int)
      modifies this
      ensures Calls(api) == Counted(old(Calls(api)), now)
      ensures Calls(api).today >= 1
      ensures api != VirusTotal ==> virusTotal == old(virusTotal)
      ensures api != GoogleSafeBrowsing ==> googleSafeBrowsing == old(googleSafeBrowsing)
      ensures requests == old(requests) && urlAnalysis == old(urlAnalysis) && errors == old(errors)
    {
      var calls := Calls(api);
      if calls.lastReset < now - DAY {
        calls := CallCounter(0, now);
      }
      calls := calls.(today := calls.today + 1);
      match api
      case VirusTotal => virusTotal := calls;
      case GoogleSafeBrowsing => googleSafeBrowsing := calls;
    }

    /** `getApiStatus`, with the service's key passed in. */
    function GetApiStatus(api: Api, apiKey: Option<string>): (status: ApiStatus)
      reads this
      ensures status == Unavailable <==> apiKey.None? || apiKey.value == ""
      ensures status == RateLimited <==> apiKey.Some? && apiKey.value != "" && Calls(api).today >= DailyLimit(api)
    {
      StatusOf(api, Calls(api), apiKey)
    }

    /**
     * `calculateCacheHitRate`: the share of analyses whose URL repeats an
     * earlier one, as a rounded percentage; zero with no requests or no
     * analyses.
     */
    function CalculateCacheHitRate(): (rate: nat)
      reads this
      ensures rate <= 100
      ensures |requests| == 0 || |urlAnalysis| == 0 ==> rate == 0
      ensures |requests| > 0 && |urlAnalysis| > 0 ==>
        var repeats := |urlAnalysis| - |UrlSet(urlAnalysis)|;
        0 <= repeats && (2 * rate - 1) * |urlAnalysis| <= 200 * repeats < (2 * rate + 1) * |urlAnalysis|
    {
      if |requests| == 0 then 0
      else
        var totalAnalysis := |urlAnalysis|;
        if totalAnalysis == 0 then 0
        else
          UrlSetSize(urlAnalysis);
          RoundedPercent(totalAnalysis - |UrlSet(urlAnalysis)|, totalAnalysis)
    }
  }

  /** With every analysed URL different, the hit rate is zero. */
  lemma NoRepeatsNoHits(store: MetricsStore)
    requires forall i, j | 0 <= i < j < |store.urlAnalysis| :: store.urlAnalysis[i].record.url != store.urlAnalysis[j].record.url
    ensures store.CalculateCacheHitRate() == 0
  {
    UrlSetOfDistinct(store.urlAnalysis);
  }

  // ---------------------------------------------------------------------
  // The POST handler

  /**
   * The `data` fields the actions read. Their JSON types are taken as the
   * handler expects them.
   */
  datatype Payload = Payload(
    duration: int, success: bool, error: Option<string>,
    url: string, userId: Option<string>,
    kind: string, message: string,
    api: string)

  /** The parsed body `{ action, data }`; an absent `data` is `None`. */
  datatype MetricsRequest = MetricsRequest(action: string, data: Option<Payload>)

  datatype PostResponse = Recorded | BadRequest(error: string)

  /** The names every object literal inherits from `Object.prototype`. */
  const OBJECT_PROTOTYPE_MEMBERS: seq<string> := [
    "constructor", "__proto__", "hasOwnProperty", "isPrototypeOf", "propertyIsEnumerable",
    "toLocaleString", "toString", "valueOf",
    "__defineGetter__", "__defineSetter__", "__lookupGetter__", "__lookupSetter__"
  ]

  /** The service an `api` string names in `apiCalls`, if it is an own key. */
  function ApiNamed(name: string): Option<Api>
  {
    if name == "virusTotal" then Some(VirusTotal)
    else if name == "googleSafeBrowsing" then Some(GoogleSafeBrowsing)
    else None
  }

  const ACTIONS: seq<string> := ["record_request", "record_analysis", "record_error", "record_api_call"]

  /**
   * `POST`: an unreadable body, a missing `data`, or an `api` that is no key
   * of `apiCalls` (reading a field of `undefined` throws) answers 400
   * "Invalid request body"; an unknown action answers 400 "Unknown action";
   * an `api` naming an inherited member reads and writes no counter of the
   * store and succeeds. Each recorded action appends its record at `now` to
   * its own list and trims that list to its window (or counts one call of
   * the named service); the rest of the store stays as it was.
   */
  method Post(store: MetricsStore, body: Option<MetricsRequest>, now: int) returns (response: PostResponse)
    modifies store
    ensures response == Recorded <==>
      body.Some? && body.value.action in ACTIONS && body.value.data.Some?
      && (body.value.action == "record_api_call" ==>
            ApiNamed(body.value.data.value.api).Some? || body.value.data.value.api in OBJECT_PROTOTYPE_MEMBERS)
    ensures body.Some? && body.value.action !in ACTIONS ==> response == BadRequest("Unknown action")
    ensures response.BadRequest? ==> response.error in {"Unknown action", "Invalid request body"}
    ensures response.BadRequest? ==> unchanged(store)
    ensures body.Some? && body.value.action == "record_request" && response == Recorded ==>
      var d := body.value.data.value;
      && store.requests == Since(old(store.requests) + [Stamped(now, RequestRecord(d.duration, d.success, d.error))], now - DAY)
      && store.urlAnalysis == old(store.urlAnalysis) && store.errors == old(store.errors)
      && store.virusTotal == old(store.virusTotal) && store.googleSafeBrowsing == old(store.googleSafeBrowsing)
    ensures body.Some? && body.value.action == "record_analysis" && response == Recorded ==>
      var d := body.value.data.value;
      && store.urlAnalysis == Since(old(store.urlAnalysis) + [Stamped(now, AnalysisRecord(d.url, d.userId))], now - WEEK)
      && store.requests == old(store.requests) && store.errors == old(store.errors)
      && store.virusTotal == old(store.virusTotal) && store.googleSafeBrowsing == old(store.googleSafeBrowsing)
    ensures body.Some? && body.value.action == "record_error" && response == Recorded ==>
      var d := body.value.data.value;
      && store.errors == Since(old(store.errors) + [Stamped(now, ErrorRecord(d.kind, d.message))], now - DAY)
      && store.requests == old(store.requests) && store.urlAnalysis == old(store.urlAnalysis)
      && store.virusTotal == old(store.virusTotal) && store.googleSafeBrowsing == old(store.googleSafeBrowsing)
    ensures body.Some? && body.value.action == "record_api_call" && response == Recorded ==>
      var api := ApiNamed(body.value.data.value.api);
      if api.Some? then
        && store.Calls(api.value) == Counted(old(store.Calls(api.value)), now)
        && (api.value != VirusTotal ==> store.virusTotal == old(store.virusTotal))
        && (api.value != GoogleSafeBrowsing ==> store.googleSafeBrowsing == old(store.googleSafeBrowsing))
        && store.requests == old(store.requests) && store.urlAnalysis == old(store.urlAnalysis)
        && store.errors == old(store.errors)
      else unchanged(store)
  {
    if body.None? {
      return BadRequest("Invalid request body");
    }
    var action, data := body.value.action, body.value.data;
    if action !in ACTIONS {
      return BadRequest("Unknown action");
    }
    if data.None? {
      return BadRequest("Invalid request body");
    }
    var d := data.value;
    if action == "record_request" {
      store.AddRequest(d.duration, d.success, d.error, now);
    } else if action == "record_analysis" {
      store.AddUrlAnalysis(d.url, d.userId, now);
    } else if action == "record_error" {
      store.AddError(d.kind, d.message, now);
    } else {
      match ApiNamed(d.api)
      case Some(api) =>
        store.IncrementApiCall(api, now);
      case None =>
        if d.api !in OBJECT_PROTOTYPE_MEMBERS {
          return BadRequest("Invalid request body");
        }
    }
    return Recorded;
  }
}
