// The URL check route's request handling: the HEAD-request loop that
// follows redirects by hand, the probes the handler runs beside it, and
// the `POST` handler that validates the input and assembles the report.

module UrlRoute {
  import opened Text
  import U = UrlUtils
  import C = UrlCheck

  // ---------------------------------------------------------------------
  // The redirect loop

  /**
   * What the loop reads of a HEAD response: the status and the headers, whose
   * names the Fetch `Headers` object already yields in lower case.
   */
  datatype HeadResponse = HeadResponse(status: int, headers: map<string, string>)

  /** The `k`-th HEAD `fetch` of the loop, of a URL: `None` when it throws. */
  type Fetcher = (nat, string) -> Option<HeadResponse>

  /** `new URL(location, base).href`: `None` when it throws. */
  type Resolver = (string, string) -> Option<string>

  /** The GET of the page and the match of its `<title>`, trimmed: `None` when absent or failed. */
  type TitleFetcher = string -> Option<string>

  const MAX_HEAD_REQUESTS: nat := 5

  /** `headers.get(name)` */
  function Header(headers: map<string, string>, name: string): Option<string>
  {
    if name in headers then Some(headers[name]) else None
  }

  /** A 3xx status with a non-empty `location`: the loop follows such an answer. */
  predicate Redirects(r: HeadResponse)
  {
    300 <= r.status < 400 && "location" in r.headers && r.headers["location"] != ""
  }

  /** The `location` of the `k`-th fetch of `u` when that fetch is answered with a redirect. */
  function Location(fetch: Fetcher, k: nat, u: string): Option<string>
  {
    match fetch(k, u)
    case None => None
    case Some(r) => if Redirects(r) then Some(r.headers["location"]) else None
  }

  /** The loop's variables, and whether an exception has ended it. */
  datatype Tracking = Tracking(redirects: seq<string>, currentUrl: string, headers: map<string, string>,
                               statusCode: Option<int>, contentType: Option<string>, threw: bool)

  function Start(url: string): Tracking
  {
    Tracking([], url, map[], None, None, false)
  }

  /** Taking in an answer: its status, its headers over the earlier ones, its content type. */
  function Answered(t: Tracking, r: HeadResponse): Tracking
  {
    t.(statusCode := Some(r.status), headers := t.headers + r.headers, contentType := Header(r.headers, "content-type"))
  }

  /**
   * The loop from iteration `i` on: it stops after the fifth fetch, at an
   * answer that does not redirect, or at an exception (of the fetch or of
   * the resolution of the location, which comes after the push).
   */
  function Track(fetch: Fetcher, resolve: Resolver, i: nat, t: Tracking): Tracking
    decreases MAX_HEAD_REQUESTS - i
  {
    if i >= MAX_HEAD_REQUESTS || t.threw then t
    else
      match fetch(i, t.currentUrl)
      case None => t.(threw := true)
      case Some(r) =>
        var t1 := Answered(t, r);
        if !Redirects(r) then t1
        else
          var t2 := t1.(redirects := t1.redirects + [t.currentUrl]);
          match resolve(r.headers["location"], t.currentUrl)
          case None => t2.(threw := true)
          case Some(next) => Track(fetch, resolve, i + 1, t2.(currentUrl := next))
  }

  /** What `analyzeHTTPResponse` returns. */
  datatype HttpAnalysis = HttpAnalysis(
    redirects: seq<string>,
    httpHeaders: map<string, string>,
    finalUrl: string,
    responseTime: int,
    statusCode: Option<int>,
    contentType: Option<string>,
    pageTitle: Option<string>)

  /** The title is fetched only after a loop without exception, for an HTML content type. */
  predicate WantsTitle(t: Tracking)
  {
    !t.threw && t.contentType.Some? && Contains(t.contentType.value, "text/html")
  }

  /** The analysis of `url`; `elapsed` is the clock difference the source measures. */
  function Analysis(url: string, fetch: Fetcher, resolve: Resolver, fetchTitle: TitleFetcher, elapsed: int): HttpAnalysis
  {
    var t := Track(fetch, resolve, 0, Start(url));
    HttpAnalysis(t.redirects, t.headers, t.currentUrl, elapsed, t.statusCode, t.contentType,
                 if WantsTitle(t) then fetchTitle(t.currentUrl) else None)
  }

  /** `analyzeHTTPResponse`: at most five HEAD requests, following redirects by hand. */
  method AnalyzeHTTPResponse(url: string, fetch: Fetcher, resolve: Resolver, fetchTitle: TitleFetcher, elapsed: int)
    returns (analysis: HttpAnalysis)
    ensures analysis == Analysis(url, fetch, resolve, fetchTitle, elapsed)
  {
    hide Track;
    var redirects: seq<string> := [];
    var currentUrl := url;
    var headers: map<string, string> := map[];
    var statusCode: Option<int> := None;
    var contentType: Option<string> := None;
    var threw := false;
    var i: nat := 0;
    while i < MAX_HEAD_REQUESTS
      invariant i <= MAX_HEAD_REQUESTS
      invariant Track(fetch, resolve, 0, Start(url))
             == Track(fetch, resolve, i, Tracking(redirects, currentUrl, headers, statusCode, contentType, false))
    {
      ghost var before := Tracking(redirects, currentUrl, headers, statusCode, contentType, false);
      var response := fetch(i, currentUrl);
      if response.None? {
        TrackThrows(fetch, resolve, i, before);
        threw := true;
        break;
      }
      var r := response.value;
      statusCode := Some(r.status);
      headers := headers + r.headers;
      contentType := Header(r.headers, "content-type");
      if 300 <= r.status < 400 {
        var location := Header(r.headers, "location");
        if location.Some? && location.value != "" {
          redirects := redirects + [currentUrl];
          var next := resolve(location.value, currentUrl);
          if next.None? {
            TrackUnresolved(fetch, resolve, i, before, r);
            threw := true;
            break;
          }
          TrackFollows(fetch, resolve, i, before, r, next.value);
          currentUrl := next.value;
          i := i + 1;
          continue;
        }
      }
      TrackStops(fetch, resolve, i, before, r);
      break;
    }
    TrackDone(fetch, resolve, i, Tracking(redirects, currentUrl, headers, statusCode, contentType, false));
    assert Tracking(redirects, currentUrl, headers, statusCode, contentType, threw) == Track(fetch, resolve, 0, Start(url));
    var pageTitle: Option<string> := None;
    if !threw && contentType.Some? && Contains(contentType.value, "text/html") {
      pageTitle := fetchTitle(currentUrl);
    }
    analysis := HttpAnalysis(redirects, headers, currentUrl, elapsed, statusCode, contentType, pageTitle);
  }

  // The steps of `Track`, one lemma per way an iteration ends.

  lemma TrackThrows(fetch: Fetcher, resolve: Resolver, i: nat, t: Tracking)
    requires i < MAX_HEAD_REQUESTS && !t.threw && fetch(i, t.currentUrl).None?
    ensures Track(fetch, resolve, i, t) == t.(threw := true)
  {
  }

  lemma TrackStops(fetch: Fetcher, resolve: Resolver, i: nat, t: Tracking, r: HeadResponse)
    requires i < MAX_HEAD_REQUESTS && !t.threw && fetch(i, t.currentUrl) == Some(r) && !Redirects(r)
    ensures Track(fetch, resolve, i, t) == Answered(t, r)
  {
  }

  lemma TrackUnresolved(fetch: Fetcher, resolve: Resolver, i: nat, t: Tracking, r: HeadResponse)
    requires i < MAX_HEAD_REQUESTS && !t.threw && fetch(i, t.currentUrl) == Some(r) && Redirects(r)
    requires resolve(r.headers["location"], t.currentUrl).None?
    ensures Track(fetch, resolve, i, t) == Answered(t, r).(redirects := t.redirects + [t.currentUrl], threw := true)
  {
  }

  lemma TrackFollows(fetch: Fetcher, resolve: Resolver, i: nat, t: Tracking, r: HeadResponse, next: string)
    requires i < MAX_HEAD_REQUESTS && !t.threw && fetch(i, t.currentUrl) == Some(r) && Redirects(r)
    requires resolve(r.headers["location"], t.currentUrl) == Some(next)
    ensures Track(fetch, resolve, i, t)
         == Track(fetch, resolve, i + 1, Answered(t, r).(redirects := t.redirects + [t.currentUrl], currentUrl := next))
  {
  }

  lemma TrackDone(fetch: Fetcher, resolve: Resolver, i: nat, t: Tracking)
    ensures i >= MAX_HEAD_REQUESTS ==> Track(fetch, resolve, i, t) == t
  {
  }

  /**
   * The recorded URLs form a chain: each was answered with a redirect, and
   * each location resolves, against the URL it came from, to the next one.
   */
  predicate Chained(fetch: Fetcher, resolve: Resolver, rs: seq<string>)
  {
    && (forall k | 0 <= k < |rs| :: Location(fetch, k, rs[k]).Some?)
    && (forall k | 0 <= k < |rs| - 1 :: resolve(Location(fetch, k, rs[k]).value, rs[k]) == Some(rs[k + 1]))
  }

  /** The last recorded URL's location resolves to `current`. */
  predicate Linked(fetch: Fetcher, resolve: Resolver, rs: seq<string>, current: string)
    requires Chained(fetch, resolve, rs)
  {
    |rs| > 0 ==> resolve(Location(fetch, |rs| - 1, rs[|rs| - 1]).value, rs[|rs| - 1]) == Some(current)
  }

  /**
   * How the loop ended. On an exception: either the fetch of the current URL
   * threw, or the last location did not resolve (and the current URL is the
   * last one recorded). Otherwise, unless five redirects were followed, the
   * current URL was fetched, its answer does not redirect, and the status,
   * content type and headers of that answer are the ones reported.
   */
  predicate Ended(fetch: Fetcher, resolve: Resolver, t: Tracking)
    requires Chained(fetch, resolve, t.redirects)
  {
    var n := |t.redirects|;
    if t.threw then
      || (n < MAX_HEAD_REQUESTS && fetch(n, t.currentUrl).None?)
      || (n > 0 && t.currentUrl == t.redirects[n - 1]
          && resolve(Location(fetch, n - 1, t.redirects[n - 1]).value, t.redirects[n - 1]).None?)
    else
      && Linked(fetch, resolve, t.redirects, t.currentUrl)
      && (n < MAX_HEAD_REQUESTS ==>
            && fetch(n, t.currentUrl).Some?
            && var r := fetch(n, t.currentUrl).value;
            && !Redirects(r)
            && t.statusCode == Some(r.status)
            && t.contentType == Header(r.headers, "content-type")
            && forall h | h in r.headers :: h in t.headers && t.headers[h] == r.headers[h])
  }

  /** Where the loop may be at iteration `i`: `i` URLs recorded, chained up to the current one. */
  predicate Reachable(fetch: Fetcher, resolve: Resolver, i: nat, t: Tracking)
  {
    |t.redirects| == i <= MAX_HEAD_REQUESTS && !t.threw
    && Chained(fetch, resolve, t.redirects) && Linked(fetch, resolve, t.redirects, t.currentUrl)
  }

  /** What the rest of the loop guarantees, from state `t` at iteration `i` to its final state `r`. */
  predicate Outcome(fetch: Fetcher, resolve: Resolver, i: nat, t: Tracking, r: Tracking)
  {
    && i <= |r.redirects| <= MAX_HEAD_REQUESTS
    && r.redirects[..i] == t.redirects
    && (|r.redirects| == i ==> r.currentUrl == t.currentUrl)
    && (|r.redirects| > i ==> r.redirects[i] == t.currentUrl)
    && (t.statusCode.Some? || (i < MAX_HEAD_REQUESTS && fetch(i, t.currentUrl).Some?) ==> r.statusCode.Some?)
    && Chained(fetch, resolve, r.redirects)
    && Ended(fetch, resolve, r)
  }

  /** From a reachable state, the loop extends the chain and ends as `Ended` says. */
  lemma {:induction false} TrackOutcome(fetch: Fetcher, resolve: Resolver, i: nat, t: Tracking)
    requires Reachable(fetch, resolve, i, t)
    ensures Outcome(fetch, resolve, i, t, Track(fetch, resolve, i, t))
    decreases MAX_HEAD_REQUESTS - i
  {
    hide Track, Outcome, Chained, Linked;
    if i >= MAX_HEAD_REQUESTS {
      TrackDone(fetch, resolve, i, t);
      AtLimitOutcome(fetch, resolve, i, t);
    } else if fetch(i, t.currentUrl).None? {
      TrackThrows(fetch, resolve, i, t);
      ThrowOutcome(fetch, resolve, i, t);
    } else {
      var resp := fetch(i, t.currentUrl).value;
      if !Redirects(resp) {
        TrackStops(fetch, resolve, i, t, resp);
        StopOutcome(fetch, resolve, i, t, resp);
      } else {
        var location := resp.headers["location"];
        ChainGrows(fetch, resolve, i, t, resp);
        if resolve(location, t.currentUrl).None? {
          TrackUnresolved(fetch, resolve, i, t, resp);
          UnresolvedOutcome(fetch, resolve, i, t, resp);
        } else {
          var next := resolve(location, t.currentUrl).value;
          var t3 := Answered(t, resp).(redirects := t.redirects + [t.currentUrl], currentUrl := next);
          TrackFollows(fetch, resolve, i, t, resp, next);
          FollowReachable(fetch, resolve, i, t, resp, next);
          TrackOutcome(fetch, resolve, i + 1, t3);
          FollowOutcome(fetch, resolve, i, t, t3, Track(fetch, resolve, i + 1, t3));
        }
      }
    }
  }

  // The cases of `TrackOutcome`, one lemma each.

  lemma AtLimitOutcome(fetch: Fetcher, resolve: Resolver, i: nat, t: Tracking)
    requires Reachable(fetch, resolve, i, t) && i >= MAX_HEAD_REQUESTS
    ensures Outcome(fetch, resolve, i, t, t)
  {
    assert t.redirects[..i] == t.redirects;
  }

  lemma ThrowOutcome(fetch: Fetcher, resolve: Resolver, i: nat, t: Tracking)
    requires Reachable(fetch, resolve, i, t) && i < MAX_HEAD_REQUESTS && fetch(i, t.currentUrl).None?
    ensures Outcome(fetch, resolve, i, t, t.(threw := true))
  {
    assert t.redirects[..i] == t.redirects;
  }

  lemma StopOutcome(fetch: Fetcher, resolve: Resolver, i: nat, t: Tracking, resp: HeadResponse)
    requires Reachable(fetch, resolve, i, t) && i < MAX_HEAD_REQUESTS
    requires fetch(i, t.currentUrl) == Some(resp) && !Redirects(resp)
    ensures Outcome(fetch, resolve, i, t, Answered(t, resp))
  {
    assert t.redirects[..i] == t.redirects;
  }

  /** A followed answer extends the chain by the current URL. */
  lemma ChainGrows(fetch: Fetcher, resolve: Resolver, i: nat, t: Tracking, resp: HeadResponse)
    requires Reachable(fetch, resolve, i, t) && i < MAX_HEAD_REQUESTS
    requires fetch(i, t.currentUrl) == Some(resp) && Redirects(resp)
    ensures Chained(fetch, resolve, t.redirects + [t.currentUrl])
    ensures Location(fetch, i, t.currentUrl) == Some(resp.headers["location"])
  {
    var rs := t.redirects + [t.currentUrl];
    assert forall k | 0 <= k < i :: rs[k] == t.redirects[k];
  }

  lemma UnresolvedOutcome(fetch: Fetcher, resolve: Resolver, i: nat, t: Tracking, resp: HeadResponse)
    requires Reachable(fetch, resolve, i, t) && i < MAX_HEAD_REQUESTS
    requires fetch(i, t.currentUrl) == Some(resp) && Redirects(resp)
    requires resolve(resp.headers["location"], t.currentUrl).None?
    requires Chained(fetch, resolve, t.redirects + [t.currentUrl])
    requires Location(fetch, i, t.currentUrl) == Some(resp.headers["location"])
    ensures Outcome(fetch, resolve, i, t, Answered(t, resp).(redirects := t.redirects + [t.currentUrl], threw := true))
  {
    assert (t.redirects + [t.currentUrl])[..i] == t.redirects;
  }

  lemma FollowReachable(fetch: Fetcher, resolve: Resolver, i: nat, t: Tracking, resp: HeadResponse, next: string)
    requires Reachable(fetch, resolve, i, t) && i < MAX_HEAD_REQUESTS
    requires fetch(i, t.currentUrl) == Some(resp) && Redirects(resp)
    requires resolve(resp.headers["location"], t.currentUrl) == Some(next)
    requires Chained(fetch, resolve, t.redirects + [t.currentUrl])
    requires Location(fetch, i, t.currentUrl) == Some(resp.headers["location"])
    ensures Reachable(fetch, resolve, i + 1, Answered(t, resp).(redirects := t.redirects + [t.currentUrl], currentUrl := next))
  {
  }

  lemma FollowOutcome(fetch: Fetcher, resolve: Resolver, i: nat, t: Tracking, t3: Tracking, r: Tracking)
    requires Reachable(fetch, resolve, i, t) && i < MAX_HEAD_REQUESTS
    requires fetch(i, t.currentUrl).Some? && t3.statusCode.Some?
    requires t3.redirects == t.redirects + [t.currentUrl]
    requires Outcome(fetch, resolve, i + 1, t3, r)
    ensures Outcome(fetch, resolve, i, t, r)
  {
    assert r.redirects[..i] == r.redirects[..i + 1][..i];
  }

  /**
   * `analyzeHTTPResponse`: at most five URLs recorded, the first being the
   * input; the final URL is the input when nothing was followed; the status
   * stays null exactly when the first fetch throws; and the loop ends as
   * `Chained` and `Ended` describe. A title is only fetched for an HTML
   * answer reached without exception.
   */
  lemma AnalysisOutcome(url: string, fetch: Fetcher, resolve: Resolver, fetchTitle: TitleFetcher, elapsed: int)
    ensures var a := Analysis(url, fetch, resolve, fetchTitle, elapsed);
      var t := Track(fetch, resolve, 0, Start(url));
      && |a.redirects| <= MAX_HEAD_REQUESTS
      && (a.redirects == [] ==> a.finalUrl == url)
      && (a.redirects != [] ==> a.redirects[0] == url)
      && (a.statusCode.None? <==> fetch(0, url).None?)
      && Chained(fetch, resolve, t.redirects)
      && Ended(fetch, resolve, t)
      && (a.pageTitle.Some? ==> !t.threw && a.contentType.Some? && Contains(a.contentType.value, "text/html"))
  {
    TrackOutcome(fetch, resolve, 0, Start(url));
  }

  /** A server that always redirects, with locations that always resolve, is followed exactly five times. */
  lemma AlwaysRedirecting(url: string, fetch: Fetcher, resolve: Resolver, fetchTitle: TitleFetcher, elapsed: int)
    requires forall k: nat, u: string :: fetch(k, u).Some? && Redirects(fetch(k, u).value)
    requires forall l: string, u: string :: resolve(l, u).Some?
    ensures |Analysis(url, fetch, resolve, fetchTitle, elapsed).redirects| == MAX_HEAD_REQUESTS
  {
    TrackOutcome(fetch, resolve, 0, Start(url));
  }

  // ---------------------------------------------------------------------
  // Probes run beside the loop

  /**
   * `checkSSL`: a URL without the `https://` prefix is never secure; otherwise
   * the HEAD probe (its status, `None` when it throws) must answer `ok` or
   * below 500.
   */
  function CheckSSL(url: string, probe: string -> Option<int>): (secure: bool)
    ensures secure ==> StartsWith(url, "https://")
    ensures secure <==> StartsWith(url, "https://") && probe(url).Some? && probe(url).value < 500
  {
    if !StartsWith(url, "https://") then false
    else
      match probe(url)
      case None => false
      case Some(status) => (200 <= status <= 299) || status < 500
  }

  /** The engine counts of a VirusTotal URL report; absent counts read as 0. */
  datatype AnalysisStats = AnalysisStats(malicious: int, suspicious: int)

  datatype Verdict = Verdict(malware: bool, phishing: bool)

  /**
   * `checkVirusTotal`: no key, a failed request or an exception (`None`)
   * flags nothing; malware needs one malicious engine, phishing more than two
   * suspicious ones.
   */
  function VirusTotal(stats: Option<AnalysisStats>): (v: Verdict)
    ensures stats.None? ==> !v.malware && !v.phishing
    ensures v.phishing <==> stats.Some? && stats.value.suspicious >= 3
    ensures v.malware <==> stats.Some? && stats.value.malicious >= 1
  {
    match stats
    case None => Verdict(false, false)
    case Some(s) => Verdict(s.malicious > 0, s.suspicious > 2)
  }

  /**
   * `resolveShortURL`: the `location` of a 3xx answer to a HEAD request (which
   * may be absent); nothing for any other answer or an exception.
   */
  function ResolveShortURL(answer: Option<HeadResponse>): (target: Option<string>)
    ensures target.Some? ==> answer.Some? && 300 <= answer.value.status < 400 && "location" in answer.value.headers
    ensures target.Some? ==> target.value == answer.value.headers["location"]
    ensures answer.Some? && 300 <= answer.value.status < 400 && "location" in answer.value.headers ==>
              target == Some(answer.value.headers["location"])
  {
    match answer
    case None => None
    case Some(r) => if 300 <= r.status < 400 then Header(r.headers, "location") else None
  }

  /** The hosts `estimateDomainAge` knows to be old, matched as substrings. */
  const KNOWN_OLD_DOMAINS: seq<string> :=
    ["google.com", "naver.com", "youtube.com", "facebook.com", "twitter.com",
     "amazon.com", "microsoft.com", "apple.com", "wikipedia.org", "github.com"]

  /** The endings of `/\.tk$|\.ml$|\.ga$|\.cf$|\.pw$/`. */
  const FREE_TLDS: seq<string> := [".tk", ".ml", ".ga", ".cf", ".pw"]

  /** Five ASCII digits in a row start at index `i`. */
  predicate DigitsAt(domain: string, i: int)
  {
    0 <= i && i + 5 <= |domain| && AllDigits(domain[i..i + 5])
  }

  /** `/[0-9]{5,}/.test(domain)`: five ASCII digits in a row somewhere. */
  predicate HasDigitRun(domain: string)
  {
    exists i | 0 <= i <= |domain| :: DigitsAt(domain, i)
  }

  /**
   * `estimateDomainAge`, in days. A host containing a known old domain is
   * 5000 days old. Otherwise `Math.floor(Math.random() * n)` is drawn, and
   * `roll % n` stands for that draw: 0 to 29 days for a free top-level
   * domain, 10 to 69 for a host with five digits in a row, 90 to 454 for
   * any other host. Nothing in the body can throw, so the `null` of its
   * `catch` never occurs and the result is a plain number.
   */
  function EstimateDomainAge(domain: string, roll: nat): (age: int)
    ensures ContainsAny(domain, KNOWN_OLD_DOMAINS) ==> age == 5000
    ensures !ContainsAny(domain, KNOWN_OLD_DOMAINS) && EndsWithAny(domain, FREE_TLDS) ==> 0 <= age < 30
    ensures !ContainsAny(domain, KNOWN_OLD_DOMAINS) && !EndsWithAny(domain, FREE_TLDS) && HasDigitRun(domain) ==>
              10 <= age < 70
    ensures !ContainsAny(domain, KNOWN_OLD_DOMAINS) && !EndsWithAny(domain, FREE_TLDS) && !HasDigitRun(domain) ==>
              90 <= age < 455
  {
    if ContainsAny(domain, KNOWN_OLD_DOMAINS) then 5000
    else if EndsWithAny(domain, FREE_TLDS) then roll % 30
    else if HasDigitRun(domain) then roll % 60 + 10
    else roll % 365 + 90
  }

  /** Every age in a host's range is drawn by some roll, so the ranges are exact. */
  lemma EveryAgeDrawn(domain: string, age: int) returns (roll: nat)
    requires !ContainsAny(domain, KNOWN_OLD_DOMAINS)
    requires EndsWithAny(domain, FREE_TLDS) ==> 0 <= age < 30
    requires !EndsWithAny(domain, FREE_TLDS) && HasDigitRun(domain) ==> 10 <= age < 70
    requires !EndsWithAny(domain, FREE_TLDS) && !HasDigitRun(domain) ==> 90 <= age < 455
    ensures EstimateDomainAge(domain, roll) == age
  {
    if EndsWithAny(domain, FREE_TLDS) {
      roll := age;
    } else if HasDigitRun(domain) {
      roll := age - 10;
    } else {
      roll := age - 90;
    }
  }

  /**
   * The points the estimate earns in the risk score: none for a known old
   * domain or an ordinary host, 3 for a free top-level domain, and 1 or 3
   * for a host with a run of digits, depending on the draw.
   */
  lemma DomainAgePoints(domain: string, roll: nat)
    ensures var points := C.AgePoints(Some(EstimateDomainAge(domain, roll)));
      && (ContainsAny(domain, KNOWN_OLD_DOMAINS) ==> points == 0)
      && (!ContainsAny(domain, KNOWN_OLD_DOMAINS) && EndsWithAny(domain, FREE_TLDS) ==> points == 3)
      && (!ContainsAny(domain, KNOWN_OLD_DOMAINS) && !EndsWithAny(domain, FREE_TLDS) && HasDigitRun(domain) ==>
            points == 1 || points == 3)
      && (!ContainsAny(domain, KNOWN_OLD_DOMAINS) && !EndsWithAny(domain, FREE_TLDS) && !HasDigitRun(domain) ==>
            points == 0)
  {
  }

  /**
   * Everything the handler consults but does not compute: the HEAD loop's
   * fetches, the title GET, the clock, and the probes (the SSL HEAD, the
   * VirusTotal report, the number of Safe Browsing matches and the
   * shortener's HEAD answer), and the random draw of the domain-age estimate.
   */
  datatype Services = Services(
    fetch: Fetcher,
    resolve: Resolver,
    fetchTitle: TitleFetcher,
    elapsed: int,
    sslProbe: string -> Option<int>,
    virusTotalStats: string -> Option<AnalysisStats>,
    safeBrowsingMatches: string -> nat,
    ageRoll: nat,
    shortenerHead: string -> Option<HeadResponse>)

  // ---------------------------------------------------------------------
  // The handler

  /** The `url` member of the JSON body: absent, a string, or some other value (truthy or not). */
  datatype UrlField = Absent | StringValue(s: string) | OtherValue(truthy: bool)

  /** `!url` */
  predicate Falsy(field: UrlField)
  {
    field.Absent? || field == StringValue("") || (field.OtherValue? && !field.truthy)
  }

  datatype CheckResponse = Report(analysis: C.URLAnalysis) | Failed(status: int, error: string)

  const NO_URL_ERROR := "URL이 제공되지 않았습니다"
  const INVALID_URL_ERROR := "유효하지 않은 URL입니다"
  const SERVER_ERROR := "서버 오류가 발생했습니다"

  /** Input without an `http://` or `https://` prefix gets `https://`; nothing is trimmed. */
  function NormalizeURL(url: string): (r: string)
    ensures StartsWith(r, "http://") || StartsWith(r, "https://")
    ensures r == url || r == "https://" + url
    ensures StartsWith(url, "http://") || StartsWith(url, "https://") ==> r == url
  {
    if !StartsWith(url, "http://") && !StartsWith(url, "https://") then "https://" + url else url
  }

  /** The report for a URL that parsed, with host `domain`, before the recommendations are added. */
  function Findings(normalized: string, domain: string, svc: Services): C.URLAnalysis
  {
    var http := Analysis(normalized, svc.fetch, svc.resolve, svc.fetchTitle, svc.elapsed);
    var ssl := CheckSSL(normalized, svc.sslProbe);
    var vt := VirusTotal(svc.virusTotalStats(normalized));
    var malware := vt.malware || svc.safeBrowsingMatches(normalized) > 0;
    var age := Some(EstimateDomainAge(domain, svc.ageRoll));
    var ip := C.IsIPAddress(domain);
    var shortener := C.IsURLShortener(domain);
    var resolved := if shortener then ResolveShortURL(svc.shortenerHead(normalized)) else None;
    var patterns := C.Found(C.FullText(normalized, http.pageTitle), C.SUSPICIOUS_PATTERNS);
    var raw := C.RawRiskScore(C.RiskInputs(ssl, ip, shortener, patterns, age, malware, vt.phishing,
                                           http.redirects, http.responseTime));
    C.URLAnalysis(ssl, age, patterns, ip, shortener, Min(raw, 10), U.LevelFor(raw), [], http.redirects,
                  http.httpHeaders, http.finalUrl, http.responseTime, http.statusCode, malware, vt.phishing,
                  http.contentType, http.pageTitle, resolved)
  }

  /** The scored report with its recommendations. */
  function FullReport(normalized: string, domain: string, svc: Services): C.URLAnalysis
  {
    var a := Findings(normalized, domain, svc);
    a.(recommendations := C.Recommendations(a))
  }

  /**
   * `POST /api/check-url`. A body that is not JSON (or is `null`), or a
   * truthy `url` that is not a string, makes the handler throw: 500.
   */
  function CheckURL(body: Option<UrlField>, parse: U.Parser, svc: Services): CheckResponse
  {
    match body
    case None => Failed(500, SERVER_ERROR)
    case Some(field) =>
      if Falsy(field) then Failed(400, NO_URL_ERROR)
      else if field.OtherValue? then Failed(500, SERVER_ERROR)
      else
        var normalized := NormalizeURL(field.s);
        match parse(normalized)
        case None => Failed(400, INVALID_URL_ERROR)
        case Some(url) => Report(FullReport(normalized, url.hostname, svc))
  }

  /** `POST`: validate, run the checks, score, and add the recommendations. */
  method Post(body: Option<UrlField>, parse: U.Parser, svc: Services) returns (response: CheckResponse)
    ensures response == CheckURL(body, parse, svc)
  {
    hide Analysis, C.Found, C.RawRiskScore, C.Recommendations, C.IsIPAddress, C.IsURLShortener, EstimateDomainAge;
    if body.None? {
      return Failed(500, SERVER_ERROR);
    }
    var field := body.value;
    if Falsy(field) {
      return Failed(400, NO_URL_ERROR);
    }
    if field.OtherValue? {
      return Failed(500, SERVER_ERROR);
    }
    var url := field.s;
    var normalizedUrl := url;
    if !StartsWith(url, "http://") && !StartsWith(url, "https://") {
      normalizedUrl := "https://" + url;
    }
    var parsed := parse(normalizedUrl);
    if parsed.None? {
      return Failed(400, INVALID_URL_ERROR);
    }
    var domain := parsed.value.hostname;
    var result := Collect(normalizedUrl, domain, svc);
    var recommendations := C.GenerateRecommendations(result);
    result := result.(recommendations := recommendations);
    return Report(result);
  }

  /** The checks and the score, as the handler runs them. */
  method Collect(normalizedUrl: string, domain: string, svc: Services) returns (result: C.URLAnalysis)
    ensures result == Findings(normalizedUrl, domain, svc)
  {
    hide Analysis, C.Found, C.RawRiskScore, C.IsIPAddress, C.IsURLShortener, EstimateDomainAge;
    var httpAnalysis := AnalyzeHTTPResponse(normalizedUrl, svc.fetch, svc.resolve, svc.fetchTitle, svc.elapsed);
    var ssl := CheckSSL(normalizedUrl, svc.sslProbe);
    var virusTotal := VirusTotal(svc.virusTotalStats(normalizedUrl));
    var googleSafeBrowsing := svc.safeBrowsingMatches(normalizedUrl) > 0;
    var domainAge := Some(EstimateDomainAge(domain, svc.ageRoll));
    var ipAddress := C.IsIPAddress(domain);
    var urlShortener := C.IsURLShortener(domain);
    var shortUrlResolved := if urlShortener then ResolveShortURL(svc.shortenerHead(normalizedUrl)) else None;
    var suspiciousPatterns := C.FindSuspiciousPatterns(normalizedUrl, httpAnalysis.pageTitle);
    var malwareDetected := virusTotal.malware || googleSafeBrowsing;
    var score, level := C.CalculateRiskScore(C.RiskInputs(ssl, ipAddress, urlShortener, suspiciousPatterns, domainAge,
                                                          malwareDetected, virusTotal.phishing,
                                                          httpAnalysis.redirects, httpAnalysis.responseTime));
    result := C.URLAnalysis(ssl, domainAge, suspiciousPatterns, ipAddress, urlShortener, score, level, [],
                            httpAnalysis.redirects, httpAnalysis.httpHeaders, httpAnalysis.finalUrl,
                            httpAnalysis.responseTime, httpAnalysis.statusCode, malwareDetected, virusTotal.phishing,
                            httpAnalysis.contentType, httpAnalysis.pageTitle, shortUrlResolved);
  }

  /**
   * The handler's answers: 400 for a missing or empty `url`, 400 when the
   * normalized URL does not parse, 500 for a body it cannot read or a `url`
   * that is not a string, and a report otherwise.
   */
  lemma CheckURLStatus(body: Option<UrlField>, parse: U.Parser, svc: Services)
    ensures var r := CheckURL(body, parse, svc);
      && (r == Failed(400, NO_URL_ERROR) <==> body.Some? && Falsy(body.value))
      && (r == Failed(500, SERVER_ERROR) <==> body.None? || (body.value.OtherValue? && body.value.truthy))
      && (r == Failed(400, INVALID_URL_ERROR) <==>
            body.Some? && body.value.StringValue? && body.value.s != "" && parse(NormalizeURL(body.value.s)).None?)
      && (r.Report? <==>
            body.Some? && body.value.StringValue? && body.value.s != "" && parse(NormalizeURL(body.value.s)).Some?)
  {
    hide FullReport;
  }

  /**
   * Every report: a score between 0 and 10; no SSL plus an IP host is high;
   * a malware or phishing flag is never low; SSL only for an `https://` URL;
   * at most five redirects, starting from the normalized URL; a resolved
   * short URL only for a shortener host; distinct pattern names; and the
   * recommendations close with the one line for the level.
   */
  lemma ReportHolds(url: string, parse: U.Parser, svc: Services)
    requires CheckURL(Some(StringValue(url)), parse, svc).Report?
    ensures var a := CheckURL(Some(StringValue(url)), parse, svc).analysis;
      var r := a.recommendations;
      && 0 <= a.riskScore <= 10
      && (!a.ssl && a.ipAddress ==> a.riskLevel == U.High)
      && (a.malwareDetected || a.phishingDetected ==> a.riskLevel != U.Low)
      && (a.ssl ==> StartsWith(NormalizeURL(url), "https://"))
      && |a.redirects| <= MAX_HEAD_REQUESTS
      && (a.redirects != [] ==> a.redirects[0] == NormalizeURL(url))
      && (a.shortenedUrlResolved.Some? ==> a.urlShortener)
      && (forall i, j | 0 <= i < j < |a.suspiciousPatterns| :: a.suspiciousPatterns[i] != a.suspiciousPatterns[j])
      && 1 <= |r| && r[|r| - 1] == C.OverallLine(a.riskLevel)
      && (forall i | 0 <= i < |r| - 1 :: !C.IsOverallLine(r[i]))
  {
    hide C.Found, C.Recommendations, C.RawRiskScore, C.IsIPAddress, C.IsURLShortener, Chained, Ended, EstimateDomainAge;
    var normalized := NormalizeURL(url);
    var domain := parse(normalized).value.hostname;
    var f := Findings(normalized, domain, svc);
    var http := Analysis(normalized, svc.fetch, svc.resolve, svc.fetchTitle, svc.elapsed);
    AnalysisOutcome(normalized, svc.fetch, svc.resolve, svc.fetchTitle, svc.elapsed);
    C.RiskScoreLevels(C.RiskInputs(f.ssl, f.ipAddress, f.urlShortener, f.suspiciousPatterns, f.domainAge,
                                   f.malwareDetected, f.phishingDetected, http.redirects, http.responseTime));
    C.TableDistinct();
    C.FoundDistinct(C.FullText(normalized, http.pageTitle), C.SUSPICIOUS_PATTERNS);
    C.RecommendationsEnd(f);
  }

  /**
   * Every report carries an age: the estimate for the parsed host, 5000
   * days for a host containing a known old domain, which then earns no
   * age points.
   */
  lemma DomainAgeReported(url: string, parse: U.Parser, svc: Services)
    requires CheckURL(Some(StringValue(url)), parse, svc).Report?
    ensures var a := CheckURL(Some(StringValue(url)), parse, svc).analysis;
      var host := parse(NormalizeURL(url)).value.hostname;
      && a.domainAge == Some(EstimateDomainAge(host, svc.ageRoll))
      && (ContainsAny(host, KNOWN_OLD_DOMAINS) ==> a.domainAge == Some(5000) && C.AgePoints(a.domainAge) == 0)
  {
    hide Analysis, C.Found, C.Recommendations, C.RawRiskScore, C.IsIPAddress, C.IsURLShortener, EstimateDomainAge;
  }

  /** `www.google.com` contains a known old domain, so any draw gives 5000 days. */
  lemma GoogleIsOld(roll: nat)
    ensures EstimateDomainAge("www.google.com", roll) == 5000
  {
    hide EstimateDomainAge;
    var host := "www.google.com";
    var known := KNOWN_OLD_DOMAINS[0];
    assert known == "google.com";
    assert host == "www." + known;
    assert host[4..] == known;
    assert host[4..4 + |known|] == known;
    AtContains(host, 4, known);
  }

  /** `192.168.1.1` is four groups of digits. */
  lemma PrivateAddressIsIP()
    ensures C.IsIPAddress("192.168.1.1")
  {
    hide Split;
    var t3 := "1";
    var t2 := "1" + ['.'] + t3;
    var t1 := "168" + ['.'] + t2;
    var t0 := "192" + ['.'] + t1;
    SplitNoSeparator(t3, '.');
    SplitAtFirst("1", t3, '.');
    SplitAtFirst("168", t2, '.');
    SplitAtFirst("192", t1, '.');
    assert Split(t0, '.') == ["192", "168", "1", "1"];
    assert t0 == "192.168.1.1";
  }

  /**
   * Plain HTTP to an IP host is reported as high risk with a score above 5,
   * whatever the probes answer.
   */
  lemma PlainHttpIPIsHigh(parse: U.Parser, svc: Services)
    requires parse("http://192.168.1.1") == Some(U.WhatwgUrl("http:", "192.168.1.1", "", "/", "", ""))
    ensures var r := CheckURL(Some(StringValue("http://192.168.1.1")), parse, svc);
      r.Report? && !r.analysis.ssl && r.analysis.ipAddress && r.analysis.riskLevel == U.High
      && r.analysis.riskScore > 5
  {
    var url := "http://192.168.1.1";
    assert StartsWith(url, "http://");
    assert NormalizeURL(url) == url;
    assert !StartsWith(url, "https://") by {
      assert url[4] != "https://"[4];
    }
    PrivateAddressIsIP();
    ReportHolds(url, parse, svc);
  }

  /**
   * A scheme-less input reaches the parser with `https://` in front, so
   * `invalid-url` is rejected only if `https://invalid-url` does not parse.
   */
  lemma SchemePrepended(parse: U.Parser, svc: Services)
    ensures CheckURL(Some(StringValue("invalid-url")), parse, svc) == Failed(400, INVALID_URL_ERROR)
            <==> parse("https://invalid-url").None?
  {
    var url := "invalid-url";
    assert !StartsWith(url, "http://") && !StartsWith(url, "https://") by {
      assert url[0] != 'h';
    }
    assert NormalizeURL(url) == "https://invalid-url";
    CheckURLStatus(Some(StringValue(url)), parse, svc);
  }
}
