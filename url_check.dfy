// The URL check route's classifiers: the table of suspicious patterns
// tested against the URL (and page title), the IP-address and shortener
// tests on the host, the additive risk score and the recommendation list.

module UrlCheck {
  import opened Text
  import U = UrlUtils

  // ---------------------------------------------------------------------
  // Suspicious patterns

  /** The nine entries of `SUSPICIOUS_PATTERNS`, in table order. */
  datatype SuspiciousPattern =
    | Shortener | DottedIp | LongRandomDomain | ManyDigits | PhishingKeyword
    | FreeDomain | PhishingPath | GeneratedDomain | DashedIp

  const SUSPICIOUS_PATTERNS: seq<SuspiciousPattern> :=
    [Shortener, DottedIp, LongRandomDomain, ManyDigits, PhishingKeyword, FreeDomain, PhishingPath, GeneratedDomain,
     DashedIp]

  function PatternName(p: SuspiciousPattern): string
  {
    match p
    case Shortener => "URL 단축 서비스"
    case DottedIp => "IP 주소 직접 사용"
    case LongRandomDomain => "랜덤한 긴 도메인"
    case ManyDigits => "과도한 숫자 사용"
    case PhishingKeyword => "피싱 의심 키워드"
    case FreeDomain => "무료 도메인 사용"
    case PhishingPath => "피싱 관련 경로"
    case GeneratedDomain => "자동 생성 도메인 패턴"
    case DashedIp => "IP 패턴 변형"
  }

  const SHORTENER_WORDS: seq<string> := ["bit.ly", "tinyurl", "goo.gl", "t.co", "short.link", "ow.ly", "is.gd"]
  const PHISHING_KEYWORDS: seq<string> := ["secure-", "bank-", "paypal-", "amazon-", "apple-", "microsoft-"]
  const FREE_DOMAIN_ENDINGS: seq<string> := [".tk", ".ml", ".ga", ".cf", ".pw"]
  const PHISHING_PATH_WORDS: seq<string> := ["login", "signin", "verify", "update", "suspended", "limited"]

  /** The number of digits in a row from position `p`. */
  function DigitRun(t: string, p: int): (n: nat)
    requires 0 <= p <= |t|
    ensures p + n <= |t|
    ensures forall j | p <= j < p + n :: IsDigit(t[j])
    ensures p + n == |t| || !IsDigit(t[p + n])
    decreases |t| - p
  {
    if p < |t| && IsDigit(t[p]) then 1 + DigitRun(t, p + 1) else 0
  }

  /**
   * `\d{1,3}S\d{1,3}S\d{1,3}S\d{1,3}` for the separator `S` matches somewhere
   * exactly when some digit is followed by `S`, two runs of one to three
   * digits each closed by `S`, and a digit: a match can always be narrowed
   * to one digit in the outer groups, and the inner groups are whole digit
   * runs because a separator closes them.
   */
  predicate QuadAt(t: string, i: int, sep: char)
  {
    0 <= i && i + 1 < |t| && IsDigit(t[i]) && t[i + 1] == sep
    && var a := DigitRun(t, i + 2);
    1 <= a <= 3 && i + 2 + a < |t| && t[i + 2 + a] == sep
    && var b := DigitRun(t, i + 3 + a);
    1 <= b <= 3 && i + 3 + a + b < |t| && t[i + 3 + a + b] == sep
    && i + 4 + a + b < |t| && IsDigit(t[i + 4 + a + b])
  }

  predicate IsLowerAlnum(c: char) { IsLower(c) || IsDigit(c) }

  /** `[a-z0-9]{15,}\.com` narrowed to its last fifteen characters before `.com`. */
  predicate LongRandomAt(t: string, i: int)
  {
    0 <= i && i + 19 <= |t| && (forall j | i <= j < i + 15 :: IsLowerAlnum(t[j])) && t[i + 15..i + 19] == ".com"
  }

  /** `[a-z]+-[0-9]+\.` narrowed to the letter before the hyphen; the digits run up to the dot. */
  predicate GeneratedAt(t: string, i: int)
  {
    0 <= i && i + 2 < |t| && IsLower(t[i]) && t[i + 1] == '-'
    && var r := DigitRun(t, i + 2);
    r >= 1 && i + 2 + r < |t| && t[i + 2 + r] == '.'
  }

  /** `pattern.test(text)`: case-sensitive and unanchored except for the `$` of the free-domain endings. */
  predicate Matches(p: SuspiciousPattern, text: string)
  {
    match p
    case Shortener => ContainsAny(text, SHORTENER_WORDS)
    case DottedIp => exists i | 0 <= i < |text| :: QuadAt(text, i, '.')
    case LongRandomDomain => exists i | 0 <= i < |text| :: LongRandomAt(text, i)
    case ManyDigits => U.HasDigitRun(text)
    case PhishingKeyword => ContainsAny(text, PHISHING_KEYWORDS)
    case FreeDomain => EndsWithAny(text, FREE_DOMAIN_ENDINGS)
    case PhishingPath => ContainsAny(text, PHISHING_PATH_WORDS)
    case GeneratedDomain => exists i | 0 <= i < |text| :: GeneratedAt(text, i)
    case DashedIp => exists i | 0 <= i < |text| :: QuadAt(text, i, '-')
  }

  /** `url + (pageTitle ? ' ' + pageTitle : '')`: an empty title adds nothing. */
  function FullText(url: string, pageTitle: Option<string>): string
  {
    if pageTitle.Some? && pageTitle.value != "" then url + " " + pageTitle.value else url
  }

  /** The names of the patterns of `ps` that match, in the order of `ps`. */
  function Found(text: string, ps: seq<SuspiciousPattern>): seq<string>
  {
    if |ps| == 0 then []
    else
      var rest := Found(text, ps[..|ps| - 1]);
      var p := ps[|ps| - 1];
      if Matches(p, text) then rest + [PatternName(p)] else rest
  }

  /** `findSuspiciousPatterns`: one pass over the table, pushing each matching name. */
  method FindSuspiciousPatterns(url: string, pageTitle: Option<string>) returns (found: seq<string>)
    ensures found == Found(FullText(url, pageTitle), SUSPICIOUS_PATTERNS)
  {
    found := [];
    var fullText := url + (if pageTitle.Some? && pageTitle.value != "" then " " + pageTitle.value else "");
    assert fullText == FullText(url, pageTitle);
    for i := 0 to |SUSPICIOUS_PATTERNS|
      invariant found == Found(fullText, SUSPICIOUS_PATTERNS[..i])
    {
      assert SUSPICIOUS_PATTERNS[..i + 1][..i] == SUSPICIOUS_PATTERNS[..i];
      if Matches(SUSPICIOUS_PATTERNS[i], fullText) {
        found := found + [PatternName(SUSPICIOUS_PATTERNS[i])];
      }
    }
    assert SUSPICIOUS_PATTERNS[..|SUSPICIOUS_PATTERNS|] == SUSPICIOUS_PATTERNS;
  }

  /** A name is reported exactly when a pattern of that name matches. */
  lemma {:induction false} FoundMeans(text: string, ps: seq<SuspiciousPattern>, name: string)
    ensures name in Found(text, ps) <==> exists k | 0 <= k < |ps| :: Matches(ps[k], text) && PatternName(ps[k]) == name
  {
    hide Matches, PatternName;
    if |ps| > 0 {
      var init := ps[..|ps| - 1];
      FoundMeans(text, init, name);
      if exists k | 0 <= k < |ps| :: Matches(ps[k], text) && PatternName(ps[k]) == name {
        var k :| 0 <= k < |ps| && Matches(ps[k], text) && PatternName(ps[k]) == name;
        if k < |init| {
          assert init[k] == ps[k];
        }
      }
      if exists k | 0 <= k < |init| :: Matches(init[k], text) && PatternName(init[k]) == name {
        var k :| 0 <= k < |init| && Matches(init[k], text) && PatternName(init[k]) == name;
        assert ps[k] == init[k];
      }
    }
  }

  /** Different patterns have different names. */
  lemma PatternNameInjective(p: SuspiciousPattern, q: SuspiciousPattern)
    requires p != q
    ensures PatternName(p) != PatternName(q)
  {
    match p
    case Shortener => assert PatternName(p)[0] == 'U';
    case DottedIp => assert PatternName(p)[..3] == "IP ";
    case LongRandomDomain => assert PatternName(p)[0] == '랜';
    case ManyDigits => assert PatternName(p)[0] == '과';
    case PhishingKeyword => assert PatternName(p)[3] == '의';
    case FreeDomain => assert PatternName(p)[0] == '무';
    case PhishingPath => assert PatternName(p)[3] == '관';
    case GeneratedDomain => assert PatternName(p)[0] == '자';
    case DashedIp => assert PatternName(p)[..3] == "IP ";
  }

  /** Each name is reported at most once, so at most nine names are reported. */
  lemma {:induction false} FoundDistinct(text: string, ps: seq<SuspiciousPattern>)
    requires forall i, j | 0 <= i < j < |ps| :: ps[i] != ps[j]
    ensures var found := Found(text, ps);
      |found| <= |ps| && forall i, j | 0 <= i < j < |found| :: found[i] != found[j]
  {
    hide Matches, PatternName;
    if |ps| > 0 {
      var init := ps[..|ps| - 1];
      var p := ps[|ps| - 1];
      FoundDistinct(text, init);
      var rest := Found(text, init);
      if Matches(p, text) {
        var found := rest + [PatternName(p)];
        forall i, j | 0 <= i < j < |found|
          ensures found[i] != found[j]
        {
          if j == |found| - 1 {
            assert found[i] == rest[i];
            FoundMeans(text, init, rest[i]);
            var k :| 0 <= k < |init| && Matches(init[k], text) && PatternName(init[k]) == rest[i];
            assert init[k] == ps[k] != p;
            PatternNameInjective(init[k], p);
          } else {
            assert found[i] == rest[i] && found[j] == rest[j];
          }
        }
      }
    }
  }

  /** The table lists each pattern once. */
  lemma TableDistinct()
    ensures forall i, j | 0 <= i < j < |SUSPICIOUS_PATTERNS| :: SUSPICIOUS_PATTERNS[i] != SUSPICIOUS_PATTERNS[j]
  {
  }

  /**
   * A bare dotted-quad URL is reported as a direct IP address: the
   * pattern is unanchored and has no upper bound on the numbers.
   */
  lemma DottedQuadReported(url: string, pageTitle: Option<string>, i: int)
    requires 0 <= i && i + 7 <= |url|
    requires IsDigit(url[i]) && url[i + 1] == '.' && IsDigit(url[i + 2]) && url[i + 3] == '.'
    requires IsDigit(url[i + 4]) && url[i + 5] == '.' && IsDigit(url[i + 6])
    ensures PatternName(DottedIp) in Found(FullText(url, pageTitle), SUSPICIOUS_PATTERNS)
  {
    var t := FullText(url, pageTitle);
    assert t[..|url|] == url;
    assert t[i + 2] == url[i + 2] && t[i + 3] == url[i + 3] && t[i + 4] == url[i + 4] && t[i + 5] == url[i + 5];
    assert DigitRun(t, i + 2) == 1 by {
      assert DigitRun(t, i + 3) == 0;
    }
    assert DigitRun(t, i + 4) == 1 by {
      assert DigitRun(t, i + 5) == 0;
    }
    assert QuadAt(t, i, '.');
    assert Matches(SUSPICIOUS_PATTERNS[1], t);
    FoundMeans(t, SUSPICIOUS_PATTERNS, PatternName(DottedIp));
  }

  // ---------------------------------------------------------------------
  // Host tests

  /** `^([0-9a-fA-F]{1,4}:){7}[0-9a-fA-F]{1,4}$`: eight colon-separated groups of one to four hex digits. */
  predicate IsFullIPv6(h: string)
  {
    var groups := Split(h, ':');
    |groups| == 8 && forall i | 0 <= i < 8 :: 1 <= |groups[i]| <= 4 && AllHexDigits(groups[i])
  }

  /** `isIPAddress`: the IPv4 form (no range check on the numbers) or the uncompressed IPv6 form. */
  predicate IsIPAddress(domain: string)
  {
    U.IsDottedQuad(domain) || IsFullIPv6(domain)
  }

  /** `isURLShortener`: the host contains one of the shortener names. */
  predicate IsURLShortener(domain: string)
  {
    ContainsAny(domain, U.SHORT_URL_DOMAINS)
  }

  /** The numbers of a dotted quad are not range-checked: `999.999.999.999` counts as an address. */
  lemma NoRangeCheck()
    ensures IsIPAddress("999.999.999.999")
  {
    hide Split;
    var n := "999";
    var t1 := n;
    var t2 := n + ['.'] + t1;
    var t3 := n + ['.'] + t2;
    var t4 := n + ['.'] + t3;
    SplitNoSeparator(n, '.');
    SplitAtFirst(n, t1, '.');
    SplitAtFirst(n, t2, '.');
    SplitAtFirst(n, t3, '.');
    assert Split(t4, '.') == [n, n, n, n];
    assert t4 == "999.999.999.999";
  }

  /** An IPv6 host name in brackets, as the URL parser writes it, never passes the IPv6 test. */
  lemma BracketedIPv6Rejected(h: string)
    requires |h| > 0 && h[0] == '['
    ensures !IsFullIPv6(h)
  {
    var groups := Split(h, ':');
    SplitFirstPart(h, ':');
    if |groups[0]| > 0 {
      assert groups[0][0] == '[' && !IsHexDigit(groups[0][0]);
    }
  }

  /** The first part of a split starts the string. */
  lemma {:induction false} SplitFirstPart(s: string, c: char)
    ensures var first := Split(s, c)[0]; first <= s
  {
    if |s| > 0 {
      SplitFirstPart(s[1..], c);
    }
  }

  /** The route's shortener test on a host agrees with the URL helpers' test on the parsed host. */
  lemma ShortenerTestsAgree(url: string, parse: U.Parser)
    ensures U.IsShortURL(url, parse) == IsURLShortener(U.Parsed(url, parse).hostname)
  {
  }

  // ---------------------------------------------------------------------
  // Risk score

  /** The fields of the analysis that `calculateRiskScore` reads. */
  datatype RiskInputs = RiskInputs(
    ssl: bool,
    ipAddress: bool,
    urlShortener: bool,
    suspiciousPatterns: seq<string>,
    domainAge: Option<int>,
    malwareDetected: bool,
    phishingDetected: bool,
    redirects: seq<string>,
    responseTime: int)

  /** Under 30 days: 3 points; under 90: 1; an unknown age: none. */
  function AgePoints(domainAge: Option<int>): nat
  {
    match domainAge
    case None => 0
    case Some(age) => if age < 30 then 3 else if age < 90 then 1 else 0
  }

  /** The sum before the cap of 10: one term per check. */
  function RawRiskScore(a: RiskInputs): nat
  {
    (if !a.ssl then 3 else 0) + (if a.ipAddress then 4 else 0) + (if a.urlShortener then 2 else 0)
    + |a.suspiciousPatterns| + AgePoints(a.domainAge)
    + (if a.malwareDetected then 5 else 0) + (if a.phishingDetected then 5 else 0)
    + (if |a.redirects| > 2 then 2 else 0) + (if a.responseTime > 5000 then 1 else 0)
  }

  /** `calculateRiskScore`: the points accumulate, the level is read from the sum and the score is capped. */
  method CalculateRiskScore(a: RiskInputs) returns (score: int, level: U.RiskLevel)
    ensures score == Min(RawRiskScore(a), 10)
    ensures level == U.LevelFor(RawRiskScore(a))
  {
    score := 0;
    if !a.ssl {
      score := score + 3;
    }
    if a.ipAddress {
      score := score + 4;
    }
    if a.urlShortener {
      score := score + 2;
    }
    score := score + |a.suspiciousPatterns|;
    assert score == (if !a.ssl then 3 else 0) + (if a.ipAddress then 4 else 0) + (if a.urlShortener then 2 else 0)
      + |a.suspiciousPatterns|;
    if a.domainAge.Some? {
      if a.domainAge.value < 30 {
        score := score + 3;
      } else if a.domainAge.value < 90 {
        score := score + 1;
      }
    }
    if a.malwareDetected {
      score := score + 5;
    }
    if a.phishingDetected {
      score := score + 5;
    }
    assert score == RawRiskScore(a) - (if |a.redirects| > 2 then 2 else 0) - (if a.responseTime > 5000 then 1 else 0);
    if |a.redirects| > 2 {
      score := score + 2;
    }
    if a.responseTime > 5000 {
      score := score + 1;
    }
    assert score == RawRiskScore(a);
    if score <= 2 {
      level := U.Low;
    } else if score <= 6 {
      level := U.Medium;
    } else {
      level := U.High;
    }
    score := Min(score, 10);
  }

  /** The rank of a level, low to high. */
  function LevelRank(l: U.RiskLevel): nat
  {
    match l
    case Low => 0
    case Medium => 1
    case High => 2
  }

  /**
   * No HTTPS and a bare IP host already make 7 points: high. Malware or
   * phishing alone (5 points) is at least medium; both together are high.
   */
  lemma RiskScoreLevels(a: RiskInputs)
    ensures !a.ssl && a.ipAddress ==> U.LevelFor(RawRiskScore(a)) == U.High
    ensures a.malwareDetected || a.phishingDetected ==> U.LevelFor(RawRiskScore(a)) != U.Low
    ensures a.malwareDetected && a.phishingDetected ==> U.LevelFor(RawRiskScore(a)) == U.High
    ensures 0 <= Min(RawRiskScore(a), 10) <= 10
  {
  }

  /**
   * A site on HTTPS with no finding, no known-young domain, at most two
   * redirects and a quick response scores 0: low.
   */
  lemma CleanSiteIsLow(a: RiskInputs)
    requires a.ssl && !a.ipAddress && !a.urlShortener && a.suspiciousPatterns == [] && AgePoints(a.domainAge) == 0
    requires !a.malwareDetected && !a.phishingDetected && |a.redirects| <= 2 && a.responseTime <= 5000
    ensures RawRiskScore(a) == 0 && U.LevelFor(RawRiskScore(a)) == U.Low
  {
  }

  /** One more finding, or a newly set flag, never lowers the level. */
  lemma RiskScoreMonotone(a: RiskInputs, pattern: string)
    ensures var b := a.(suspiciousPatterns := a.suspiciousPatterns + [pattern]);
      RawRiskScore(b) == RawRiskScore(a) + 1 && LevelRank(U.LevelFor(RawRiskScore(a))) <= LevelRank(U.LevelFor(RawRiskScore(b)))
    ensures LevelRank(U.LevelFor(RawRiskScore(a))) <= LevelRank(U.LevelFor(RawRiskScore(a.(malwareDetected := true))))
    ensures LevelRank(U.LevelFor(RawRiskScore(a))) <= LevelRank(U.LevelFor(RawRiskScore(a.(phishingDetected := true))))
    ensures LevelRank(U.LevelFor(RawRiskScore(a))) <= LevelRank(U.LevelFor(RawRiskScore(a.(ssl := false))))
    ensures LevelRank(U.LevelFor(RawRiskScore(a))) <= LevelRank(U.LevelFor(RawRiskScore(a.(ipAddress := true))))
  {
  }

  // ---------------------------------------------------------------------
  // Recommendations

  /** `URLAnalysis`: the report the route returns. */
  datatype URLAnalysis = URLAnalysis(
    ssl: bool,
    domainAge: Option<int>,
    suspiciousPatterns: seq<string>,
    ipAddress: bool,
    urlShortener: bool,
    riskScore: int,
    riskLevel: U.RiskLevel,
    recommendations: seq<string>,
    redirects: seq<string>,
    httpHeaders: map<string, string>,
    finalUrl: string,
    responseTime: int,
    statusCode: Option<int>,
    malwareDetected: bool,
    phishingDetected: bool,
    contentType: Option<string>,
    pageTitle: Option<string>,
    shortenedUrlResolved: Option<string>)

  const NO_HTTPS_LINE := "❌ HTTPS를 사용하지 않습니다. 개인정보 입력을 절대 피하세요."
  const IP_LINE := "⚠️ IP 주소를 직접 사용하는 사이트는 매우 의심스럽습니다."
  const SHORTENER_LINE := "🔗 URL 단축 서비스를 사용하므로 실제 대상을 확인할 수 없습니다."
  const MALWARE_LINE := "🚨 멀웨어가 탐지되었습니다. 절대 방문하지 마세요!"
  const PHISHING_LINE := "🎣 피싱 사이트로 의심됩니다. 개인정보를 절대 입력하지 마세요!"
  const NEW_DOMAIN_LINE := "🆕 최근에 생성된 도메인입니다. 피싱 사이트일 가능성이 높습니다."
  const SLOW_LINE := "🐌 응답 시간이 매우 느립니다. 서버에 문제가 있을 수 있습니다."
  const HIGH_LINE := "🚨 이 사이트는 매우 위험합니다. 방문을 강력히 권장하지 않습니다."
  const MEDIUM_LINE := "⚠️ 이 사이트는 주의해서 방문하세요. 개인정보 입력은 피하세요."
  const LOW_LINE := "✅ 상대적으로 안전한 사이트로 보입니다."

  function ResolvedLine(url: string): string { "🔍 실제 URL: " + url }
  function RedirectsLine(n: nat): string { "🔄 " + NatToString(n) + "번의 리디렉션이 발생했습니다." }
  function PatternsLine(n: nat): string { "⚠️ " + NatToString(n) + "개의 의심스러운 패턴이 발견되었습니다." }
  function HttpErrorLine(code: nat): string { "❌ HTTP 오류 (" + NatToString(code) + ")가 발생했습니다." }

  /** The closing line for each level. */
  function OverallLine(level: U.RiskLevel): string
  {
    match level
    case High => HIGH_LINE
    case Medium => MEDIUM_LINE
    case Low => LOW_LINE
  }

  predicate IsOverallLine(line: string)
  {
    line == HIGH_LINE || line == MEDIUM_LINE || line == LOW_LINE
  }

  function Line(holds: bool, line: string): seq<string>
  {
    if holds then [line] else []
  }

  /** A truthy HTTP error status: a status code of 400 or more. */
  predicate HttpError(statusCode: Option<int>)
  {
    statusCode.Some? && statusCode.value != 0 && statusCode.value >= 400
  }

  /** The issue lines, in the order the checks run. */
  function IssueLines(a: URLAnalysis): seq<string>
  {
    HostLines(a) + ThreatLines(a) + SiteLines(a)
  }

  /** The lines about the connection and the host. */
  function HostLines(a: URLAnalysis): seq<string>
  {
    Line(!a.ssl, NO_HTTPS_LINE) + Line(a.ipAddress, IP_LINE) + ShortenerLines(a)
  }

  /** The shortener line, followed by the resolved target when one is known. */
  function ShortenerLines(a: URLAnalysis): seq<string>
  {
    if !a.urlShortener then []
    else
      match a.shortenedUrlResolved
      case Some(target) => [SHORTENER_LINE] + Line(target != "", ResolvedLine(target))
      case None => [SHORTENER_LINE]
  }

  /** The lines about detections, redirects and patterns. */
  function ThreatLines(a: URLAnalysis): seq<string>
  {
    Line(a.malwareDetected, MALWARE_LINE) + Line(a.phishingDetected, PHISHING_LINE)
    + Line(|a.redirects| > 0, RedirectsLine(|a.redirects|))
    + Line(|a.suspiciousPatterns| > 0, PatternsLine(|a.suspiciousPatterns|))
  }

  /** The lines about the domain's age and the response. */
  function SiteLines(a: URLAnalysis): seq<string>
  {
    Line(a.domainAge.Some? && a.domainAge.value < 30, NEW_DOMAIN_LINE)
    + Line(a.responseTime > 5000, SLOW_LINE)
    + Line(HttpError(a.statusCode), HttpErrorLine(if HttpError(a.statusCode) then a.statusCode.value else 0))
  }

  /** `generateRecommendations`: the issue lines, then one closing line for the level. */
  function Recommendations(a: URLAnalysis): seq<string>
  {
    IssueLines(a) + [OverallLine(a.riskLevel)]
  }

  /** `generateRecommendations`, pushing line by line. */
  method GenerateRecommendations(a: URLAnalysis) returns (recommendations: seq<string>)
    ensures recommendations == Recommendations(a)
  {
    hide HostLines, ThreatLines, SiteLines;
    recommendations := [];
    recommendations := PushHostLines(a, recommendations);
    recommendations := PushThreatLines(a, recommendations);
    recommendations := PushSiteLines(a, recommendations);
    assert recommendations == IssueLines(a);
    if a.riskLevel == U.High {
      recommendations := recommendations + [HIGH_LINE];
    } else if a.riskLevel == U.Medium {
      recommendations := recommendations + [MEDIUM_LINE];
    } else {
      recommendations := recommendations + [LOW_LINE];
    }
  }

  method PushHostLines(a: URLAnalysis, recommendations: seq<string>) returns (r: seq<string>)
    ensures r == recommendations + HostLines(a)
  {
    hide NO_HTTPS_LINE, IP_LINE, SHORTENER_LINE, ResolvedLine;
    r := recommendations;
    if !a.ssl {
      r := r + [NO_HTTPS_LINE];
    }
    assert r == recommendations + Line(!a.ssl, NO_HTTPS_LINE);
    if a.ipAddress {
      r := r + [IP_LINE];
    }
    var tail := r;
    if a.urlShortener {
      r := r + [SHORTENER_LINE];
      if a.shortenedUrlResolved.Some? && a.shortenedUrlResolved.value != "" {
        r := r + [ResolvedLine(a.shortenedUrlResolved.value)];
      }
    }
    assert r == tail + ShortenerLines(a);
  }

  method PushThreatLines(a: URLAnalysis, recommendations: seq<string>) returns (r: seq<string>)
    ensures r == recommendations + ThreatLines(a)
  {
    hide MALWARE_LINE, PHISHING_LINE, RedirectsLine, PatternsLine;
    r := recommendations;
    if a.malwareDetected {
      r := r + [MALWARE_LINE];
    }
    if a.phishingDetected {
      r := r + [PHISHING_LINE];
    }
    assert r == recommendations + (Line(a.malwareDetected, MALWARE_LINE) + Line(a.phishingDetected, PHISHING_LINE));
    if |a.redirects| > 0 {
      r := r + [RedirectsLine(|a.redirects|)];
    }
    if |a.suspiciousPatterns| > 0 {
      r := r + [PatternsLine(|a.suspiciousPatterns|)];
    }
  }

  method PushSiteLines(a: URLAnalysis, recommendations: seq<string>) returns (r: seq<string>)
    ensures r == recommendations + SiteLines(a)
  {
    hide NEW_DOMAIN_LINE, SLOW_LINE, HttpErrorLine;
    r := recommendations;
    if a.domainAge.Some? && a.domainAge.value < 30 {
      r := r + [NEW_DOMAIN_LINE];
    }
    if a.responseTime > 5000 {
      r := r + [SLOW_LINE];
    }
    assert r == recommendations + (Line(a.domainAge.Some? && a.domainAge.value < 30, NEW_DOMAIN_LINE)
      + Line(a.responseTime > 5000, SLOW_LINE));
    if a.statusCode.Some? && a.statusCode.value != 0 && a.statusCode.value >= 400 {
      r := r + [HttpErrorLine(a.statusCode.value)];
    }
  }

  predicate NoOverallLine(lines: seq<string>)
  {
    forall i | 0 <= i < |lines| :: !IsOverallLine(lines[i])
  }

  lemma NoOverallAppend(xs: seq<string>, ys: seq<string>)
    requires NoOverallLine(xs) && NoOverallLine(ys)
    ensures NoOverallLine(xs + ys)
  {
    assert forall i | |xs| <= i < |xs + ys| :: (xs + ys)[i] == ys[i - |xs|];
  }

  /** No issue line, fixed or filled in, reads like a closing line. */
  lemma IssueLinesNotOverall(a: URLAnalysis)
    ensures NoOverallLine(IssueLines(a))
    ensures |IssueLines(a)| <= 11
  {
    hide NatToString, Line, HostLines, ThreatLines, SiteLines, ShortenerLines;
    hide NO_HTTPS_LINE, IP_LINE, SHORTENER_LINE, MALWARE_LINE, PHISHING_LINE, NEW_DOMAIN_LINE, SLOW_LINE;
    HostLinesNotOverall(a);
    ThreatLinesNotOverall(a);
    SiteLinesNotOverall(a);
    NoOverallAppend(HostLines(a), ThreatLines(a));
    NoOverallAppend(HostLines(a) + ThreatLines(a), SiteLines(a));
  }

  lemma LineNotOverall(holds: bool, line: string)
    requires !IsOverallLine(line)
    ensures NoOverallLine(Line(holds, line)) && |Line(holds, line)| <= 1
  {
  }

  lemma HostLinesNotOverall(a: URLAnalysis)
    ensures NoOverallLine(HostLines(a)) && |HostLines(a)| <= 4
  {
    hide Line, ResolvedLine, NO_HTTPS_LINE, IP_LINE, SHORTENER_LINE;
    FixedLinesNotOverall();
    LineNotOverall(!a.ssl, NO_HTTPS_LINE);
    LineNotOverall(a.ipAddress, IP_LINE);
    NoOverallAppend(Line(!a.ssl, NO_HTTPS_LINE), Line(a.ipAddress, IP_LINE));
    if a.urlShortener && a.shortenedUrlResolved.Some? {
      var target := a.shortenedUrlResolved.value;
      FilledLinesNotOverall(target, 0, 0);
      LineNotOverall(target != "", ResolvedLine(target));
      NoOverallAppend([SHORTENER_LINE], Line(target != "", ResolvedLine(target)));
    }
    NoOverallAppend(Line(!a.ssl, NO_HTTPS_LINE) + Line(a.ipAddress, IP_LINE), ShortenerLines(a));
  }

  /** The fixed issue lines differ from the closing lines. */
  lemma FixedLinesNotOverall()
    ensures !IsOverallLine(NO_HTTPS_LINE) && !IsOverallLine(IP_LINE) && !IsOverallLine(SHORTENER_LINE)
    ensures !IsOverallLine(MALWARE_LINE) && !IsOverallLine(PHISHING_LINE) && !IsOverallLine(NEW_DOMAIN_LINE)
    ensures !IsOverallLine(SLOW_LINE)
  {
  }

  /** The filled-in lines differ from the closing lines: their leading symbol, or the number after it, differs. */
  lemma FilledLinesNotOverall(url: string, n: nat, code: nat)
    ensures !IsOverallLine(ResolvedLine(url)) && !IsOverallLine(RedirectsLine(n))
    ensures !IsOverallLine(PatternsLine(n)) && !IsOverallLine(HttpErrorLine(code))
  {
    hide NatToString;
    assert ResolvedLine(url)[0] == '🔍';
    assert RedirectsLine(n)[0] == '🔄';
    assert HttpErrorLine(code)[0] == '❌';
    var digits := NatToString(n);
    assert PatternsLine(n)[3] == digits[0] && IsDigit(digits[0]);
    assert MEDIUM_LINE[3] == '이';
  }

  lemma ThreatLinesNotOverall(a: URLAnalysis)
    ensures NoOverallLine(ThreatLines(a)) && |ThreatLines(a)| <= 4
  {
    hide Line, RedirectsLine, PatternsLine, MALWARE_LINE, PHISHING_LINE;
    FixedLinesNotOverall();
    FilledLinesNotOverall("", |a.redirects|, 0);
    FilledLinesNotOverall("", |a.suspiciousPatterns|, 0);
    var l1, l2 := Line(a.malwareDetected, MALWARE_LINE), Line(a.phishingDetected, PHISHING_LINE);
    var l3 := Line(|a.redirects| > 0, RedirectsLine(|a.redirects|));
    var l4 := Line(|a.suspiciousPatterns| > 0, PatternsLine(|a.suspiciousPatterns|));
    LineNotOverall(a.malwareDetected, MALWARE_LINE);
    LineNotOverall(a.phishingDetected, PHISHING_LINE);
    LineNotOverall(|a.redirects| > 0, RedirectsLine(|a.redirects|));
    LineNotOverall(|a.suspiciousPatterns| > 0, PatternsLine(|a.suspiciousPatterns|));
    NoOverallAppend(l1, l2);
    NoOverallAppend(l1 + l2, l3);
    NoOverallAppend(l1 + l2 + l3, l4);
  }

  lemma SiteLinesNotOverall(a: URLAnalysis)
    ensures NoOverallLine(SiteLines(a)) && |SiteLines(a)| <= 3
  {
    hide Line, HttpErrorLine, NEW_DOMAIN_LINE, SLOW_LINE;
    FixedLinesNotOverall();
    var code := if HttpError(a.statusCode) then a.statusCode.value else 0;
    FilledLinesNotOverall("", 0, code);
    var l1 := Line(a.domainAge.Some? && a.domainAge.value < 30, NEW_DOMAIN_LINE);
    var l2 := Line(a.responseTime > 5000, SLOW_LINE);
    var l3 := Line(HttpError(a.statusCode), HttpErrorLine(code));
    LineNotOverall(a.domainAge.Some? && a.domainAge.value < 30, NEW_DOMAIN_LINE);
    LineNotOverall(a.responseTime > 5000, SLOW_LINE);
    LineNotOverall(HttpError(a.statusCode), HttpErrorLine(code));
    NoOverallAppend(l1, l2);
    NoOverallAppend(l1 + l2, l3);
  }

  /**
   * The list ends with exactly one closing line, the one for the level, and
   * holds at most twelve lines.
   */
  lemma RecommendationsEnd(a: URLAnalysis)
    ensures var r := Recommendations(a);
      && 1 <= |r| <= 12
      && r[|r| - 1] == OverallLine(a.riskLevel)
      && forall i | 0 <= i < |r| - 1 :: !IsOverallLine(r[i])
  {
    hide IssueLines;
    IssueLinesNotOverall(a);
    var r := Recommendations(a);
    assert forall i | 0 <= i < |r| - 1 :: r[i] == IssueLines(a)[i];
  }
}
