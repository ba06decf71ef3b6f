// URL helpers: parsing into host parts, safety and risk checks on the
// parsed host, display shortening, and list operations (deduplication,
// grouping by domain, sorting by risk). The WHATWG URL parser behind
// `new URL(...)` is a parameter: it either fails or yields the URL's
// components.

module UrlUtils {
  import opened Text

  /** The components `new URL(...)` exposes. */
  datatype WhatwgUrl = WhatwgUrl(protocol: string, hostname: string, port: string, pathname: string, search: string,
                                 hash: string)

  /** `new URL(s)`: `None` when it throws. */
  type Parser = string -> Option<WhatwgUrl>

  /** `ParsedURL`; `port`, `subdomain` and `tld` are absent unless set. */
  datatype ParsedURL = ParsedURL(
    protocol: string,
    hostname: string,
    port: Option<string>,
    pathname: string,
    search: string,
    hash: string,
    isValid: bool,
    isSecure: bool,
    isLocalhost: bool,
    isIP: bool,
    domain: string,
    subdomain: Option<string>,
    tld: Option<string>)

  const INVALID := ParsedURL("", "", None, "", "", "", false, false, false, false, "", None, None)

  predicate HasHttpScheme(s: string)
  {
    StartsWith(s, "http://") || StartsWith(s, "https://")
  }

  /** `https://` is put in front of text that starts with neither `http://` nor `https://`. */
  function PrefixScheme(s: string): (n: string)
    ensures HasHttpScheme(n)
    ensures HasHttpScheme(s) ==> n == s
    ensures !HasHttpScheme(s) ==> |n| == |s| + 8 && n[8..] == s
  {
    if HasHttpScheme(s) then s else "https://" + s
  }

  /** `^\d{1,3}\.\d{1,3}\.\d{1,3}\.\d{1,3}$`: four dot-separated groups of one to three digits. */
  predicate IsDottedQuad(h: string)
  {
    var parts := Split(h, '.');
    |parts| == 4 && forall i | 0 <= i < 4 :: 1 <= |parts[i]| <= 3 && AllDigits(parts[i])
  }

  /** What `parseURL` returns. */
  function Parsed(urlString: string, parse: Parser): ParsedURL
  {
    match parse(PrefixScheme(Trim(urlString)))
    case None => INVALID
    case Some(url) =>
      var isIP := IsDottedQuad(url.hostname);
      var parts := Split(url.hostname, '.');
      var split := !isIP && |parts| >= 2;
      ParsedURL(url.protocol, url.hostname, Some(url.port), url.pathname, url.search, url.hash, true,
        url.protocol == "https:", url.hostname == "localhost" || url.hostname == "127.0.0.1", isIP,
        if split then parts[|parts| - 2] + "." + parts[|parts| - 1] else "",
        if split && |parts| > 2 then Some(Join(parts[..|parts| - 2], '.')) else None,
        if split then Some(parts[|parts| - 1]) else None)
  }

  /** `parseURL`, filling the result record field by field. */
  method ParseURL(urlString: string, parse: Parser) returns (result: ParsedURL)
    ensures result == Parsed(urlString, parse)
  {
    result := INVALID;
    var normalizedURL := Trim(urlString);
    if !StartsWith(normalizedURL, "http://") && !StartsWith(normalizedURL, "https://") {
      normalizedURL := "https://" + normalizedURL;
    }
    var parsed := parse(normalizedURL);
    if parsed.None? {
      result := result.(isValid := false);
      return;
    }
    var url := parsed.value;
    result := result.(protocol := url.protocol, hostname := url.hostname, port := Some(url.port),
      pathname := url.pathname, search := url.search, hash := url.hash);
    result := result.(isValid := true, isSecure := url.protocol == "https:",
      isLocalhost := url.hostname == "localhost" || url.hostname == "127.0.0.1", isIP := IsDottedQuad(url.hostname));
    if !result.isIP {
      var parts := Split(url.hostname, '.');
      if |parts| >= 2 {
        result := result.(tld := Some(parts[|parts| - 1]));
        result := result.(domain := parts[|parts| - 2] + "." + result.tld.value);
        if |parts| > 2 {
          result := result.(subdomain := Some(Join(parts[..|parts| - 2], '.')));
        }
      }
    }
  }

  /**
   * Validity is the parser's verdict on the trimmed text with a scheme put in
   * front; an invalid URL has every field empty; secure means `https:`.
   */
  lemma ParsedMeans(urlString: string, parse: Parser)
    ensures var p := Parsed(urlString, parse);
      && (p.isValid <==> parse(PrefixScheme(Trim(urlString))).Some?)
      && (!p.isValid ==> p == INVALID)
      && (p.isSecure <==> p.isValid && p.protocol == "https:")
      && (p.isValid ==> p.hostname == parse(PrefixScheme(Trim(urlString))).value.hostname)
  {
  }

  /**
   * For a host that is not a dotted quad and has at least two labels, the
   * top-level label, the registrable domain and the subdomain put together
   * give the host back; a host without a `tld` has no dot or is a dotted quad.
   */
  lemma HostRecombines(urlString: string, parse: Parser)
    ensures var p := Parsed(urlString, parse);
      && (p.tld.Some? ==>
            && !p.isIP && '.' !in p.tld.value
            && EndsWith(p.domain, "." + p.tld.value)
            && p.hostname == (if p.subdomain.Some? then p.subdomain.value + "." else "") + p.domain)
      && (p.isValid && p.tld.None? ==> p.isIP || '.' !in p.hostname)
      && (p.tld.None? ==> p.domain == "" && p.subdomain.None?)
  {
    hide Split, Join, IsDottedQuad;
    var p := Parsed(urlString, parse);
    if p.isValid {
      var h := p.hostname;
      if p.tld.Some? {
        LabelsRecombine(h);
      } else if !p.isIP {
        SplitLength(h, '.');
        if '.' in h {
          var k :| 0 <= k < |h| && h[k] == '.';
          CountPositive(h, '.', k);
        }
      }
    }
  }

  /** The last label, the last two labels and the labels before them put together give the host back. */
  lemma LabelsRecombine(h: string)
    requires |Split(h, '.')| >= 2
    ensures var parts := Split(h, '.'); var n := |parts|; var d := parts[n - 2] + "." + parts[n - 1];
      && '.' !in parts[n - 1]
      && EndsWith(d, "." + parts[n - 1])
      && h == (if n > 2 then Join(parts[..n - 2], '.') + "." else "") + d
  {
    hide Split;
    var parts := Split(h, '.');
    var n := |parts|;
    SplitPartsFree(h, '.');
    JoinSplit(h, '.');
    var d := parts[n - 2] + "." + parts[n - 1];
    assert d[|parts[n - 2]|..] == "." + parts[n - 1];
    var init := parts[..n - 1];
    assert parts == init + [parts[n - 1]];
    JoinSnoc(init, parts[n - 1], '.');
    if n > 2 {
      var head := parts[..n - 2];
      assert init == head + [parts[n - 2]];
      JoinSnoc(head, parts[n - 2], '.');
    } else {
      assert Join(init, '.') == parts[0];
    }
  }

  // ---------------------------------------------------------------------
  // Safety, same domain, shortening

  const DANGEROUS_SCHEMES: seq<string> := ["javascript:", "data:", "file:", "ftp:"]

  /** `[\w.-]`: a letter, digit, underscore, dot or hyphen. */
  predicate IsHostChar(c: char)
  {
    IsWordChar(c) || c == '.' || c == '-'
  }

  /** None of `/[^\w.-]/`, `/\.\./`, `/-$/`, `/^-/` matches the host. */
  predicate SafeHost(h: string)
  {
    && (forall i | 0 <= i < |h| :: IsHostChar(h[i]))
    && !Contains(h, "..")
    && !EndsWith(h, "-")
    && !StartsWith(h, "-")
  }

  /** `isURLSafe` */
  predicate IsURLSafe(url: string, parse: Parser)
  {
    var p := Parsed(url, parse);
    p.isValid && !(exists k | 0 <= k < |DANGEROUS_SCHEMES| :: StartsWith(ToLower(url), DANGEROUS_SCHEMES[k]))
    && SafeHost(p.hostname)
  }

  /**
   * A URL that starts with a dangerous scheme, in any case, is unsafe, and so
   * is any host with a character outside `[\w.-]`, a double dot or a hyphen
   * at either end; `javascript:alert(1)` is unsafe.
   */
  lemma UnsafeURLs(url: string, parse: Parser)
    ensures (exists k | 0 <= k < |DANGEROUS_SCHEMES| :: StartsWith(ToLower(url), DANGEROUS_SCHEMES[k]))
      ==> !IsURLSafe(url, parse)
    ensures !SafeHost(Parsed(url, parse).hostname) ==> !IsURLSafe(url, parse)
    ensures !IsURLSafe("javascript:alert(1)", parse)
  {
    hide Parsed, SafeHost, ToLower;
    JavascriptScheme();
  }

  lemma JavascriptScheme()
    ensures StartsWith(ToLower("javascript:alert(1)"), DANGEROUS_SCHEMES[0])
  {
    hide ToLower;
    var j := "javascript:alert(1)";
    var l := ToLower(j);
    forall i | 0 <= i < 11
      ensures l[i] == "javascript:"[i]
    {
      assert l[i] == LowerChar(j[i]);
    }
    assert l[..11] == "javascript:";
  }

  /** `isSameDomain`: both valid and with the same registrable domain. */
  predicate IsSameDomain(url1: string, url2: string, parse: Parser)
  {
    var p1, p2 := Parsed(url1, parse), Parsed(url2, parse);
    p1.isValid && p2.isValid && p1.domain == p2.domain
  }

  /** Being on the same domain is symmetric and transitive, and reflexive on valid URLs. */
  lemma SameDomainIsEquivalence(a: string, b: string, c: string, parse: Parser)
    ensures IsSameDomain(a, b, parse) ==> IsSameDomain(b, a, parse)
    ensures IsSameDomain(a, b, parse) && IsSameDomain(b, c, parse) ==> IsSameDomain(a, c, parse)
    ensures IsSameDomain(a, a, parse) <==> Parsed(a, parse).isValid
  {
    hide Parsed;
  }

  /**
   * `shortenURL`: the URL itself when it fits; for a valid URL, at most
   * `maxLength` characters when that is at least 3; for an invalid one,
   * the first `maxLength` characters and an ellipsis. `maxLength` defaults
   * to 50.
   */
  function ShortenURL(url: string, parse: Parser, maxLength: int := 50): (r: string)
    ensures |url| <= maxLength ==> r == url
    ensures |url| > maxLength && maxLength >= 3 && Parsed(url, parse).isValid ==> |r| <= maxLength
    ensures |url| > maxLength && !Parsed(url, parse).isValid ==> r == Take(url, maxLength) + "..."
    ensures r == url || EndsWith(r, "...") || r == Parsed(url, parse).hostname + Parsed(url, parse).pathname
      + Parsed(url, parse).search
  {
    if |url| <= maxLength then url
    else
      var parsed := Parsed(url, parse);
      if !parsed.isValid then Take(url, maxLength) + "..."
      else
        var domain := parsed.hostname;
        var path := parsed.pathname + parsed.search;
        if |domain| >= maxLength - 3 then Take(domain, maxLength - 3) + "..."
        else
          var remainingLength := maxLength - |domain| - 3;
          if |path| > remainingLength then domain + Take(path, remainingLength) + "..."
          else domain + path
  }

  const SHORT_URL_DOMAINS: seq<string> := [
    "bit.ly", "tinyurl.com", "goo.gl", "t.co", "short.link",
    "ow.ly", "is.gd", "buff.ly", "rebrand.ly", "tiny.cc",
    "tr.im", "snurl.com", "x.co", "smarturl.it", "cutt.ly"
  ]

  /** `isShortURL`: the host contains one of the listed domains anywhere. */
  predicate IsShortURL(url: string, parse: Parser)
  {
    ContainsAny(Parsed(url, parse).hostname, SHORT_URL_DOMAINS)
  }

  /**
   * An invalid URL is never short (its host is empty), while any host that
   * merely contains a listed name is: `netflix.com` contains `x.co`.
   */
  lemma ShortURLByContainment(url: string, parse: Parser)
    ensures !Parsed(url, parse).isValid ==> !IsShortURL(url, parse)
    ensures Contains(Parsed(url, parse).hostname, "x.co") ==> IsShortURL(url, parse)
    ensures ContainsAny("netflix.com", SHORT_URL_DOMAINS)
  {
    hide Parsed;
    if !Parsed(url, parse).isValid {
      ParsedMeans(url, parse);
      forall k | 0 <= k < |SHORT_URL_DOMAINS|
        ensures !Contains("", SHORT_URL_DOMAINS[k])
      {
        assert |SHORT_URL_DOMAINS[k]| > 0;
      }
    }
    assert SHORT_URL_DOMAINS[12] == "x.co";
    assert At("netflix.com", 6, "x.co");
  }

  // ---------------------------------------------------------------------
  // Risk assessment

  datatype RiskLevel = Low | Medium | High

  /** `score <= 2 ? 'low' : score <= 6 ? 'medium' : 'high'` */
  function LevelFor(score: int): RiskLevel
  {
    if score <= 2 then Low else if score <= 6 then Medium else High
  }

  const INVALID_FACTOR := "유효하지 않은 URL"
  const HTTP_FACTOR := "HTTPS 미사용"
  const IP_FACTOR := "IP 주소 직접 사용"
  const SHORT_FACTOR := "URL 단축 서비스 사용"
  const LONG_HOST_FACTOR := "비정상적으로 긴 도메인"
  const DIGITS_FACTOR := "과도한 숫자 포함"
  const SEPARATORS_FACTOR := "연속된 특수문자"

  /** The points each factor adds. */
  function FactorWeight(f: string): nat
  {
    if f == INVALID_FACTOR then 5
    else if f == HTTP_FACTOR then 3
    else if f == IP_FACTOR then 4
    else if f == SHORT_FACTOR then 2
    else if f == LONG_HOST_FACTOR then 2
    else if f == DIGITS_FACTOR then 1
    else if f == SEPARATORS_FACTOR then 2
    else 0
  }

  function TotalWeight(factors: seq<string>): nat
  {
    if |factors| == 0 then 0 else TotalWeight(factors[..|factors| - 1]) + FactorWeight(factors[|factors| - 1])
  }

  lemma {:induction false} TotalWeightAppend(xs: seq<string>, ys: seq<string>)
    ensures TotalWeight(xs + ys) == TotalWeight(xs) + TotalWeight(ys)
  {
    if |ys| > 0 {
      var init := ys[..|ys| - 1];
      assert (xs + ys)[..|xs + ys| - 1] == xs + init;
      TotalWeightAppend(xs, init);
    } else {
      assert xs + ys == xs;
    }
  }

  /** `/\d{5,}/`: five digits in a row. */
  predicate HasDigitRun(h: string)
  {
    exists i | 0 <= i && i + 5 <= |h| :: DigitRunAt(h, i)
  }

  predicate DigitRunAt(h: string, i: int)
  {
    0 <= i && i + 5 <= |h| && AllDigits(h[i..i + 5])
  }

  predicate IsSeparator(c: char) { c == '.' || c == '-' }

  /** `/[.-]{2,}/`: two dots or hyphens in a row. */
  predicate HasSeparatorRun(h: string)
  {
    exists i | 0 <= i < |h| - 1 :: IsSeparator(h[i]) && IsSeparator(h[i + 1])
  }

  datatype Assessment = Assessment(score: int, factors: seq<string>, level: RiskLevel)

  function Factor(holds: bool, f: string): seq<string>
  {
    if holds then [f] else []
  }

  /** `assessURLRisk`: each check that holds names its factor and adds its points. */
  function AssessURLRisk(url: string, parse: Parser): Assessment
  {
    var p := Parsed(url, parse);
    var short := IsShortURL(url, parse);
    var long := |p.hostname| > 50;
    var digits := HasDigitRun(p.hostname);
    var separators := HasSeparatorRun(p.hostname);
    var factors := Factor(!p.isValid, INVALID_FACTOR) + Factor(!p.isSecure, HTTP_FACTOR) + Factor(p.isIP, IP_FACTOR)
      + Factor(short, SHORT_FACTOR) + Factor(long, LONG_HOST_FACTOR) + Factor(digits, DIGITS_FACTOR)
      + Factor(separators, SEPARATORS_FACTOR);
    var score := (if !p.isValid then 5 else 0) + (if !p.isSecure then 3 else 0) + (if p.isIP then 4 else 0)
      + (if short then 2 else 0) + (if long then 2 else 0) + (if digits then 1 else 0) + (if separators then 2 else 0);
    Assessment(score, factors, LevelFor(score))
  }

  function RiskScore(url: string, parse: Parser): int
  {
    AssessURLRisk(url, parse).score
  }

  /**
   * The score is the sum of the listed factors' points, every factor is
   * named at most once, and the level follows the score.
   */
  lemma AssessmentIsAdditive(url: string, parse: Parser)
    ensures var a := AssessURLRisk(url, parse);
      && a.score == TotalWeight(a.factors)
      && 0 <= a.score <= 5 + 3 + 4 + 2 + 2 + 1 + 2
      && |a.factors| <= 7
      && a.level == LevelFor(a.score)
  {
    hide Parsed, IsShortURL, HasDigitRun, HasSeparatorRun, TotalWeight, FactorWeight, Factor;
    var p := Parsed(url, parse);
    var b1, b2, b3, b4 := !p.isValid, !p.isSecure, p.isIP, IsShortURL(url, parse);
    var b5, b6, b7 := |p.hostname| > 50, HasDigitRun(p.hostname), HasSeparatorRun(p.hostname);
    var f1, f2, f3, f4 := Factor(b1, INVALID_FACTOR), Factor(b2, HTTP_FACTOR), Factor(b3, IP_FACTOR), Factor(b4, SHORT_FACTOR);
    var f5, f6, f7 := Factor(b5, LONG_HOST_FACTOR), Factor(b6, DIGITS_FACTOR), Factor(b7, SEPARATORS_FACTOR);
    FactorWeights();
    FactorTotal(b1, INVALID_FACTOR);
    FactorTotal(b2, HTTP_FACTOR);
    FactorTotal(b3, IP_FACTOR);
    FactorTotal(b4, SHORT_FACTOR);
    FactorTotal(b5, LONG_HOST_FACTOR);
    FactorTotal(b6, DIGITS_FACTOR);
    FactorTotal(b7, SEPARATORS_FACTOR);
    TotalWeightAppend(f1, f2);
    TotalWeightAppend(f1 + f2, f3);
    TotalWeightAppend(f1 + f2 + f3, f4);
    TotalWeightAppend(f1 + f2 + f3 + f4, f5);
    TotalWeightAppend(f1 + f2 + f3 + f4 + f5, f6);
    TotalWeightAppend(f1 + f2 + f3 + f4 + f5 + f6, f7);
    assert AssessURLRisk(url, parse).factors == f1 + f2 + f3 + f4 + f5 + f6 + f7;
  }

  lemma FactorTotal(holds: bool, f: string)
    ensures TotalWeight(Factor(holds, f)) == (if holds then FactorWeight(f) else 0)
    ensures |Factor(holds, f)| <= 1
  {
    hide FactorWeight;
    if holds {
      assert Factor(holds, f)[..0] == [];
    }
  }

  lemma FactorWeights()
    ensures FactorWeight(INVALID_FACTOR) == 5 && FactorWeight(HTTP_FACTOR) == 3 && FactorWeight(IP_FACTOR) == 4
    ensures FactorWeight(SHORT_FACTOR) == 2 && FactorWeight(LONG_HOST_FACTOR) == 2
    ensures FactorWeight(DIGITS_FACTOR) == 1 && FactorWeight(SEPARATORS_FACTOR) == 2
  {
  }

  /** A plain-HTTP dotted-quad host scores at least 7: high, naming both factors. */
  lemma PlainIPIsHigh(url: string, parse: Parser)
    requires Parsed(url, parse).isValid && !Parsed(url, parse).isSecure && Parsed(url, parse).isIP
    ensures var a := AssessURLRisk(url, parse);
      a.level == High && HTTP_FACTOR in a.factors && IP_FACTOR in a.factors && INVALID_FACTOR !in a.factors
  {
    hide Parsed, IsShortURL, HasDigitRun, HasSeparatorRun;
  }

  /** A valid HTTPS host that trips none of the host checks scores 0: low, with no factor. */
  lemma CleanURLIsLow(url: string, parse: Parser)
    requires var p := Parsed(url, parse);
      p.isValid && p.isSecure && !p.isIP && !IsShortURL(url, parse) && |p.hostname| <= 50
      && !HasDigitRun(p.hostname) && !HasSeparatorRun(p.hostname)
    ensures AssessURLRisk(url, parse) == Assessment(0, [], Low)
  {
    hide Parsed, IsShortURL, HasDigitRun, HasSeparatorRun;
  }

  // ---------------------------------------------------------------------
  // Path extensions

  const IMAGE_EXTENSIONS: seq<string> := [".jpg", ".jpeg", ".png", ".gif", ".webp", ".svg", ".bmp", ".ico"]

  /** `isImageURL`: the lower-cased path ends in one of the image extensions. */
  predicate IsImageURL(url: string, parse: Parser)
  {
    EndsWithAny(ToLower(Parsed(url, parse).pathname), IMAGE_EXTENSIONS)
  }

  /**
   * `getFileExtension`: absent when the path has no dot or ends in one,
   * otherwise the lower-cased text after the last dot.
   */
  function GetFileExtension(url: string, parse: Parser): (r: Option<string>)
    ensures var path := Parsed(url, parse).pathname;
      && (r.None? <==> '.' !in path || path[|path| - 1] == '.')
      && (r.Some? ==> |r.value| > 0 && '.' !in r.value && EndsWith(ToLower(path), "." + r.value))
  {
    var pathname := Parsed(url, parse).pathname;
    var lastDot := LastIndexOf(pathname, '.');
    if lastDot == -1 || lastDot == |pathname| - 1 then None
    else
      LowerSuffix(pathname, lastDot);
      Some(ToLower(pathname[lastDot + 1..]))
  }

  /** Lower-casing keeps dots where they are and commutes with taking a suffix. */
  lemma LowerSuffix(s: string, k: int)
    requires 0 <= k < |s| && s[k] == '.' && forall j | k < j < |s| :: s[j] != '.'
    ensures var l := ToLower(s);
      && ToLower(s[k + 1..]) == l[k + 1..]
      && '.' !in ToLower(s[k + 1..])
      && EndsWith(l, "." + l[k + 1..])
  {
    hide ToLower;
    var l := ToLower(s);
    LowerSlice(s, k + 1);
    var rest := s[k + 1..];
    assert forall j | 0 <= j < |rest| :: rest[j] != '.' by {
      assert forall j | 0 <= j < |rest| :: rest[j] == s[k + 1 + j];
    }
    LowerKeepsDots(rest);
    assert l[k] == '.' by {
      assert l[k] == LowerChar(s[k]);
    }
    SuffixEndsWith(l, k);
  }

  lemma SuffixEndsWith(l: string, k: int)
    requires 0 <= k < |l|
    ensures EndsWith(l, [l[k]] + l[k + 1..])
  {
    assert [l[k]] + l[k + 1..] == l[k..];
  }

  lemma {:induction false} LowerSlice(s: string, i: int)
    requires 0 <= i <= |s|
    ensures ToLower(s[i..]) == ToLower(s)[i..]
  {
    if i > 0 {
      assert s[1..][i - 1..] == s[i..];
      LowerSlice(s[1..], i - 1);
    }
  }

  lemma LowerKeepsDots(s: string)
    requires forall j | 0 <= j < |s| :: s[j] != '.'
    ensures '.' !in ToLower(s)
  {
    hide ToLower;
    var t := ToLower(s);
    assert forall j | 0 <= j < |t| :: t[j] == LowerChar(s[j]) != '.';
  }

  /** Every image extension is a dot followed by dot-free text. */
  lemma ImageExtensionShape(k: int)
    requires 0 <= k < |IMAGE_EXTENSIONS|
    ensures var e := IMAGE_EXTENSIONS[k];
      |e| >= 2 && e[0] == '.' && Avoids(e[1..], {'.'})
  {
  }

  /** A path the image check accepts has an extension, and it is one of the image extensions. */
  lemma ImageHasImageExtension(url: string, parse: Parser)
    requires IsImageURL(url, parse)
    ensures var r := GetFileExtension(url, parse);
      r.Some? && "." + r.value in IMAGE_EXTENSIONS
  {
    hide Parsed, ToLower, LastIndexOf, IMAGE_EXTENSIONS;
    var path := Parsed(url, parse).pathname;
    var l := ToLower(path);
    var i :| 0 <= i < |IMAGE_EXTENSIONS| && EndsWith(l, IMAGE_EXTENSIONS[i]);
    var ext := IMAGE_EXTENSIONS[i];
    ImageExtensionShape(i);
    var k := |path| - |ext|;
    assert l[k..] == ext;
    assert path[k] == '.' by {
      assert l[k] == LowerChar(path[k]) && l[k] == ext[0];
    }
    forall j | k < j < |path|
      ensures path[j] != '.'
    {
      assert l[j] == LowerChar(path[j]) && l[j] == ext[j - k] == ext[1..][j - k - 1];
    }
    assert LastIndexOf(path, '.') == k;
    LowerSuffix(path, k);
    assert l[k + 1..] == ext[1..];
    assert "." + ext[1..] == ext;
  }

  // ---------------------------------------------------------------------
  // Deduplication

  /** The key `deduplicateURLs` compares: the lower-cased host name. */
  function HostKey(url: string, parse: Parser): string
  {
    ToLower(Parsed(url, parse).hostname)
  }

  /** The keys of a list of URLs. */
  function HostKeys(urls: seq<string>, parse: Parser): set<string>
  {
    if |urls| == 0 then {} else HostKeys(urls[..|urls| - 1], parse) + {HostKey(urls[|urls| - 1], parse)}
  }

  /** Each URL is kept when no earlier URL had its key. */
  function Deduplicated(urls: seq<string>, parse: Parser): seq<string>
  {
    if |urls| == 0 then []
    else
      var init := urls[..|urls| - 1];
      var url := urls[|urls| - 1];
      if HostKey(url, parse) in HostKeys(init, parse) then Deduplicated(init, parse) else Deduplicated(init, parse) + [url]
  }

  /** `deduplicateURLs`: a filter that remembers the keys seen so far. */
  method DeduplicateURLs(urls: seq<string>, parse: Parser) returns (kept: seq<string>)
    ensures kept == Deduplicated(urls, parse)
  {
    var seen: set<string> := {};
    kept := [];
    for i := 0 to |urls|
      invariant kept == Deduplicated(urls[..i], parse)
      invariant seen == HostKeys(urls[..i], parse)
    {
      var parsed := ParseURL(urls[i], parse);
      var normalized := ToLower(parsed.hostname);
      assert urls[..i + 1][..i] == urls[..i];
      if normalized !in seen {
        seen := seen + {normalized};
        kept := kept + [urls[i]];
      } else {
        seen := seen + {normalized};
      }
    }
    assert urls[..|urls|] == urls;
  }

  lemma {:induction false} HostKeysMeans(urls: seq<string>, parse: Parser, k: string)
    ensures k in HostKeys(urls, parse) <==> exists j | 0 <= j < |urls| :: HostKey(urls[j], parse) == k
  {
    hide HostKey;
    if |urls| > 0 {
      var init := urls[..|urls| - 1];
      HostKeysMeans(init, parse, k);
      if exists j | 0 <= j < |urls| :: HostKey(urls[j], parse) == k {
        var j :| 0 <= j < |urls| && HostKey(urls[j], parse) == k;
        if j < |init| {
          assert init[j] == urls[j];
        }
      }
      if exists j | 0 <= j < |init| :: HostKey(init[j], parse) == k {
        var j :| 0 <= j < |init| && HostKey(init[j], parse) == k;
        assert urls[j] == init[j];
      }
    }
  }

  /**
   * The result keeps the input's order, every key of the input has a URL
   * in it, and no two kept URLs share a key.
   */
  lemma {:induction false} DeduplicatedMeans(urls: seq<string>, parse: Parser)
    ensures var d := Deduplicated(urls, parse);
      && Subsequence(d, urls)
      && HostKeys(d, parse) == HostKeys(urls, parse)
      && forall i, j | 0 <= i < j < |d| :: HostKey(d[i], parse) != HostKey(d[j], parse)
  {
    hide HostKey;
    if |urls| > 0 {
      var init := urls[..|urls| - 1];
      var url := urls[|urls| - 1];
      var d0 := Deduplicated(init, parse);
      DeduplicatedMeans(init, parse);
      if HostKey(url, parse) !in HostKeys(init, parse) {
        var d := d0 + [url];
        assert d[..|d| - 1] == d0;
        forall i, j | 0 <= i < j < |d|
          ensures HostKey(d[i], parse) != HostKey(d[j], parse)
        {
          if j == |d| - 1 {
            HostKeysMeans(d0, parse, HostKey(d[i], parse));
            assert d0[i] == d[i];
          } else {
            assert d[i] == d0[i] && d[j] == d0[j];
          }
        }
      }
    }
  }

  /** A URL is kept exactly when no earlier URL has its key. */
  lemma {:induction false} DeduplicatedKeepsFirst(urls: seq<string>, parse: Parser, i: int)
    requires 0 <= i < |urls|
    requires forall j | 0 <= j < i :: HostKey(urls[j], parse) != HostKey(urls[i], parse)
    ensures urls[i] in Deduplicated(urls, parse)
  {
    hide HostKey;
    var init := urls[..|urls| - 1];
    if i == |urls| - 1 {
      HostKeysMeans(init, parse, HostKey(urls[i], parse));
    } else {
      assert init[i] == urls[i];
      assert forall j | 0 <= j < i :: init[j] == urls[j];
      DeduplicatedKeepsFirst(init, parse, i);
    }
  }

  /** Every kept URL occurs in the input at a position no earlier URL shares its key with. */
  lemma {:induction false} DeduplicatedDropsRepeats(urls: seq<string>, parse: Parser, u: string)
    requires u in Deduplicated(urls, parse)
    ensures exists i | 0 <= i < |urls| ::
              urls[i] == u && forall j | 0 <= j < i :: HostKey(urls[j], parse) != HostKey(u, parse)
  {
    hide HostKey;
    var init := urls[..|urls| - 1];
    var url := urls[|urls| - 1];
    if u in Deduplicated(init, parse) {
      DeduplicatedDropsRepeats(init, parse, u);
      var i :| 0 <= i < |init| && init[i] == u && forall j | 0 <= j < i :: HostKey(init[j], parse) != HostKey(u, parse);
      assert urls[i] == u;
      assert forall j | 0 <= j < i :: urls[j] == init[j];
    } else {
      assert u == url && HostKey(url, parse) !in HostKeys(init, parse);
      HostKeysMeans(init, parse, HostKey(u, parse));
      assert forall j | 0 <= j < |urls| - 1 :: urls[j] == init[j];
    }
  }

  // ---------------------------------------------------------------------
  // Grouping by domain

  /** `parsed.domain || parsed.hostname`: the host name when no two-label domain was found. */
  function DomainKey(url: string, parse: Parser): string
  {
    var p := Parsed(url, parse);
    if p.domain != "" then p.domain else p.hostname
  }

  /** The URLs with key `k`, in input order. */
  function WithKey(urls: seq<string>, parse: Parser, k: string): seq<string>
  {
    if |urls| == 0 then []
    else
      var rest := WithKey(urls[..|urls| - 1], parse, k);
      if DomainKey(urls[|urls| - 1], parse) == k then rest + [urls[|urls| - 1]] else rest
  }

  /** Each URL appended to the group of its key, the group created on first use. */
  function Grouped(urls: seq<string>, parse: Parser): map<string, seq<string>>
  {
    if |urls| == 0 then map[]
    else
      var groups := Grouped(urls[..|urls| - 1], parse);
      var url := urls[|urls| - 1];
      var domain := DomainKey(url, parse);
      groups[domain := (if domain in groups then groups[domain] else []) + [url]]
  }

  /** `groupURLsByDomain` over a map from keys to their URLs. */
  method GroupURLsByDomain(urls: seq<string>, parse: Parser) returns (groups: map<string, seq<string>>)
    ensures groups == Grouped(urls, parse)
  {
    hide Parsed, DomainKey;
    groups := map[];
    for i := 0 to |urls|
      invariant groups == Grouped(urls[..i], parse)
    {
      var url := urls[i];
      var parsed := ParseURL(url, parse);
      var domain := if parsed.domain != "" then parsed.domain else parsed.hostname;
      DomainKeyOf(url, parse);
      GroupedStep(urls, parse, i);
      if domain !in groups {
        groups := groups[domain := []];
      }
      groups := groups[domain := groups[domain] + [url]];
    }
    assert urls[..|urls|] == urls;
  }

  lemma DomainKeyOf(url: string, parse: Parser)
    ensures var p := Parsed(url, parse);
      DomainKey(url, parse) == if p.domain != "" then p.domain else p.hostname
  {
    hide Parsed;
  }

  lemma GroupedStep(urls: seq<string>, parse: Parser, i: int)
    requires 0 <= i < |urls|
    ensures var groups := Grouped(urls[..i], parse);
      var domain := DomainKey(urls[i], parse);
      Grouped(urls[..i + 1], parse) == groups[domain := (if domain in groups then groups[domain] else []) + [urls[i]]]
  {
    hide DomainKey, Parsed;
    assert urls[..i + 1][..i] == urls[..i];
  }

  /**
   * The groups partition the input: there is a group for exactly the keys
   * that occur, and the group of a key holds the URLs with that key in
   * input order.
   */
  lemma {:induction false} GroupedMeans(urls: seq<string>, parse: Parser, k: string)
    ensures var groups := Grouped(urls, parse);
      && (k in groups <==> exists i | 0 <= i < |urls| :: DomainKey(urls[i], parse) == k)
      && (k in groups ==> groups[k] == WithKey(urls, parse, k))
      && (k !in groups ==> WithKey(urls, parse, k) == [])
  {
    hide DomainKey;
    if |urls| > 0 {
      var init := urls[..|urls| - 1];
      GroupedMeans(init, parse, k);
      if exists i | 0 <= i < |urls| :: DomainKey(urls[i], parse) == k {
        var i :| 0 <= i < |urls| && DomainKey(urls[i], parse) == k;
        if i < |init| {
          assert init[i] == urls[i];
        }
      }
      if exists i | 0 <= i < |init| :: DomainKey(init[i], parse) == k {
        var i :| 0 <= i < |init| && DomainKey(init[i], parse) == k;
        assert urls[i] == init[i];
      }
    }
  }

  /** Every URL of a group has the group's key, and every input URL is in its key's group. */
  lemma {:induction false} WithKeyMeans(urls: seq<string>, parse: Parser, k: string, u: string)
    ensures u in WithKey(urls, parse, k) <==> u in urls && DomainKey(u, parse) == k
  {
    hide DomainKey;
    if |urls| > 0 {
      var init := urls[..|urls| - 1];
      WithKeyMeans(init, parse, k, u);
      assert urls == init + [urls[|urls| - 1]];
    }
  }

  /**
   * As written, a key named like an inherited member finds a truthy
   * non-array in the empty object literal, so `push` throws: `None`.
   */
  function GroupedAsWritten(urls: seq<string>, parse: Parser): Option<map<string, seq<string>>>
  {
    if |urls| == 0 then Some(map[])
    else
      match GroupedAsWritten(urls[..|urls| - 1], parse)
      case None => None
      case Some(groups) =>
        var url := urls[|urls| - 1];
        var domain := DomainKey(url, parse);
        if domain in INHERITED_MEMBERS then None
        else Some(groups[domain := (if domain in groups then groups[domain] else []) + [url]])
  }

  /** The code as written agrees with the map model unless some key is an inherited member's name. */
  lemma {:induction false} GroupedAsWrittenAgrees(urls: seq<string>, parse: Parser)
    ensures GroupedAsWritten(urls, parse)
      == if exists i | 0 <= i < |urls| :: DomainKey(urls[i], parse) in INHERITED_MEMBERS then None
         else Some(Grouped(urls, parse))
  {
    hide DomainKey;
    if |urls| > 0 {
      var init := urls[..|urls| - 1];
      GroupedAsWrittenAgrees(init, parse);
      if exists i | 0 <= i < |init| :: DomainKey(init[i], parse) in INHERITED_MEMBERS {
        var i :| 0 <= i < |init| && DomainKey(init[i], parse) in INHERITED_MEMBERS;
        assert urls[i] == init[i];
      }
      if exists i | 0 <= i < |urls| :: DomainKey(urls[i], parse) in INHERITED_MEMBERS {
        var i :| 0 <= i < |urls| && DomainKey(urls[i], parse) in INHERITED_MEMBERS;
        if i < |init| {
          assert init[i] == urls[i];
        }
      }
    }
  }

  /** A one-label host has itself as its key. */
  lemma SingleLabelKey(url: string, parse: Parser, host: string)
    requires parse(PrefixScheme(Trim(url))).Some? && parse(PrefixScheme(Trim(url))).value.hostname == host
    requires host != "" && '.' !in host
    ensures DomainKey(url, parse) == host
  {
    hide Split, Join;
    var parts := Split(host, '.');
    SplitLength(host, '.');
    if Count(host, '.') > 0 {
      CountedIn(host, '.');
    }
    JoinSplit(host, '.');
    assert |parts| == 1;
    assert !IsDottedQuad(host) by {
      assert Split(host, '.') == parts;
    }
  }

  /**
   * `http://constructor` is a valid URL whose host `constructor` is its own
   * key: the code as written throws on it, the map model groups it.
   */
  lemma ConstructorHostThrows(parse: Parser)
    requires parse("http://constructor") == Some(WhatwgUrl("http:", "constructor", "", "/", "", ""))
    ensures GroupedAsWritten(["http://constructor"], parse) == None
    ensures Grouped(["http://constructor"], parse) == map["constructor" := ["http://constructor"]]
  {
    hide Parsed, DomainKey;
    var url := "http://constructor";
    ConstructorKey(parse);
    assert "constructor" in INHERITED_MEMBERS;
    var urls := [url];
    assert urls[..0] == [] && urls[0] == url;
    assert GroupedAsWritten(urls[..0], parse) == Some(map[]);
    assert Grouped(urls[..0], parse) == map[];
    assert DomainKey(urls[0], parse) in INHERITED_MEMBERS;
    assert GroupedAsWritten(urls, parse) == None;
    var empty: map<string, seq<string>> := map[];
    assert Grouped(urls, parse) == empty["constructor" := [] + [url]];
    assert [] + [url] == [url];
  }

  lemma ConstructorKey(parse: Parser)
    requires parse("http://constructor") == Some(WhatwgUrl("http:", "constructor", "", "/", "", ""))
    ensures DomainKey("http://constructor", parse) == "constructor"
  {
    hide Parsed, DomainKey, Split, Join, IsDottedQuad, Trim, PrefixScheme;
    ConstructorNormalized();
    assert '.' !in "constructor";
    SingleLabelKey("http://constructor", parse, "constructor");
  }

  lemma ConstructorNormalized()
    ensures PrefixScheme(Trim("http://constructor")) == "http://constructor"
  {
    var url := "http://constructor";
    assert !IsSpace(url[0]) && !IsSpace(url[|url| - 1]);
    assert TrimStart(url) == url;
    assert TrimEnd(url) == url;
    assert Trim(url) == url;
  }

  // ---------------------------------------------------------------------
  // Sorting by risk

  /** Scores never increase from one position to the next. */
  predicate SortedByRisk(urls: seq<string>, parse: Parser)
  {
    forall p, q | 0 <= p < q < |urls| :: RiskScore(urls[p], parse) >= RiskScore(urls[q], parse)
  }

  /** The URLs of `urls` that score `s`, in their order in `urls`. */
  function WithScore(urls: seq<string>, parse: Parser, s: int): seq<string>
  {
    if urls == [] then []
    else WithScore(urls[..|urls| - 1], parse, s) + (if RiskScore(urls[|urls| - 1], parse) == s then [urls[|urls| - 1]] else [])
  }

  lemma {:induction false} WithScoreAppend(a: seq<string>, b: seq<string>, parse: Parser, s: int)
    ensures WithScore(a + b, parse, s) == WithScore(a, parse, s) + WithScore(b, parse, s)
    decreases |b|
  {
    if b == [] {
      assert a + b == a;
    } else {
      var b' := b[..|b| - 1];
      assert (a + b)[..|a + b| - 1] == a + b';
      assert (a + b)[|a + b| - 1] == b[|b| - 1];
      WithScoreAppend(a, b', parse, s);
    }
  }

  /** Two URLs with different scores hold at most one URL of each score, in either order. */
  lemma PairRuns(a: string, b: string, parse: Parser, s: int)
    requires RiskScore(a, parse) != RiskScore(b, parse)
    ensures WithScore([a, b], parse, s) == WithScore([b, a], parse, s)
  {
    hide RiskScore;
    assert [a, b][..1] == [a] && [b, a][..1] == [b];
    assert [a][..0] == [] && [b][..0] == [];
  }

  /** Exchanging two neighbours with different scores keeps the order among equal scores. */
  lemma SwapKeepsRuns(x: seq<string>, j: int, parse: Parser)
    requires 0 < j < |x| && RiskScore(x[j - 1], parse) != RiskScore(x[j], parse)
    ensures forall s :: WithScore(x[j - 1 := x[j]][j := x[j - 1]], parse, s) == WithScore(x, parse, s)
  {
    hide RiskScore, WithScore;
    var y := x[j - 1 := x[j]][j := x[j - 1]];
    var front, back := x[..j - 1], x[j + 1..];
    var p, q := [x[j - 1], x[j]], [x[j], x[j - 1]];
    assert x == (front + p) + back;
    assert y == (front + q) + back;
    forall s
      ensures WithScore(y, parse, s) == WithScore(x, parse, s)
    {
      WithScoreAppend(front + p, back, parse, s);
      WithScoreAppend(front + q, back, parse, s);
      WithScoreAppend(front, p, parse, s);
      WithScoreAppend(front, q, parse, s);
      PairRuns(x[j - 1], x[j], parse, s);
    }
  }

  /** A URL of every score that has a non-empty run. */
  lemma {:induction false} RunWitness(b: seq<string>, parse: Parser, s: int) returns (k: nat)
    requires WithScore(b, parse, s) != []
    ensures k < |b| && RiskScore(b[k], parse) == s
  {
    hide RiskScore;
    if RiskScore(b[|b| - 1], parse) == s {
      k := |b| - 1;
    } else {
      k := RunWitness(b[..|b| - 1], parse, s);
    }
  }

  /** A sorted list whose last URL scores `s` has a non-empty run of `s`, and nothing scores below `s`. */
  lemma LastRun(a: seq<string>, parse: Parser)
    requires SortedByRisk(a, parse) && a != []
    ensures var x := a[|a| - 1]; var sx := RiskScore(x, parse);
      WithScore(a, parse, sx) == WithScore(a[..|a| - 1], parse, sx) + [x]
      && forall s | s != sx :: WithScore(a, parse, s) == WithScore(a[..|a| - 1], parse, s)
  {
  }

  /**
   * Sorting is fully determined: two lists sorted by risk that hold the same
   * URLs of every score in the same order are equal.
   */
  lemma {:induction false} SortedRunsDetermine(a: seq<string>, b: seq<string>, parse: Parser)
    requires SortedByRisk(a, parse) && SortedByRisk(b, parse)
    requires forall s :: WithScore(a, parse, s) == WithScore(b, parse, s)
    ensures a == b
    decreases |a|
  {
    hide RiskScore, WithScore;
    if a == [] && b == [] {
      return;
    } else if b == [] {
      LastRun(a, parse);
      var k := RunWitness(b, parse, RiskScore(a[|a| - 1], parse));
      assert false;
    } else if a == [] {
      LastRun(b, parse);
      var k := RunWitness(a, parse, RiskScore(b[|b| - 1], parse));
      assert false;
    }
    var x, y := a[|a| - 1], b[|b| - 1];
    var a', b' := a[..|a| - 1], b[..|b| - 1];
    var sx, sy := RiskScore(x, parse), RiskScore(y, parse);
    LastRun(a, parse);
    LastRun(b, parse);
    var kb := RunWitness(b, parse, sx);
    var ka := RunWitness(a, parse, sy);
    assert sy <= sx by {
      if kb < |b| - 1 {
        assert RiskScore(b[kb], parse) >= RiskScore(b[|b| - 1], parse);
      }
    }
    assert sx <= sy by {
      if ka < |a| - 1 {
        assert RiskScore(a[ka], parse) >= RiskScore(a[|a| - 1], parse);
      }
    }
    forall s
      ensures WithScore(a', parse, s) == WithScore(b', parse, s)
    {
      if s == sx {
        var ra, rb := WithScore(a', parse, s), WithScore(b', parse, s);
        assert ra + [x] == rb + [y];
        assert ra == (ra + [x])[..|ra|];
        assert rb == (rb + [y])[..|rb|];
      } else {
        assert WithScore(a, parse, s) == WithScore(b, parse, s);
      }
    }
    var ra := WithScore(a', parse, sx);
    assert ra + [x] == ra + [y];
    assert x == (ra + [x])[|ra|] == (ra + [y])[|ra|] == y;
    SortedRunsDetermine(a', b', parse);
    assert a == a' + [x] && b == b' + [y];
  }

  /**
   * `sortURLsByRisk`: the array is sorted in place, highest score first, by
   * an insertion sort that only moves a URL past URLs with a lower score.
   * Like the stable `Array.prototype.sort`, it keeps URLs of equal score in
   * their old order.
   */
  method SortURLsByRisk(urls: array<string>, parse: Parser)
    modifies urls
    ensures SortedByRisk(urls[..], parse)
    ensures multiset(urls[..]) == multiset(old(urls[..]))
    ensures forall s :: WithScore(urls[..], parse, s) == WithScore(old(urls[..]), parse, s)
  {
    hide RiskScore, WithScore;
    if urls.Length == 0 {
      return;
    }
    for i := 1 to urls.Length
      invariant SortedByRisk(urls[..i], parse)
      invariant multiset(urls[..]) == multiset(old(urls[..]))
      invariant forall s :: WithScore(urls[..], parse, s) == WithScore(old(urls[..]), parse, s)
    {
      InsertLast(urls, i, parse);
    }
    assert urls[..] == urls[..urls.Length];
  }

  /** Moves `urls[i]` down past the URLs before it that score lower. */
  method InsertLast(urls: array<string>, i: int, parse: Parser)
    requires 0 < i < urls.Length && SortedByRisk(urls[..i], parse)
    modifies urls
    ensures SortedByRisk(urls[..i + 1], parse)
    ensures multiset(urls[..]) == multiset(old(urls[..]))
    ensures forall s :: WithScore(urls[..], parse, s) == WithScore(old(urls[..]), parse, s)
  {
    hide RiskScore, WithScore;
    var j := i;
    while j > 0 && RiskScore(urls[j - 1], parse) < RiskScore(urls[j], parse)
      invariant 0 <= j <= i
      invariant forall p, q | 0 <= p < q <= i && p != j && q != j :: RiskScore(urls[p], parse) >= RiskScore(urls[q], parse)
      invariant forall q | j < q <= i :: RiskScore(urls[j], parse) > RiskScore(urls[q], parse)
      invariant multiset(urls[..]) == multiset(old(urls[..]))
      invariant forall s :: WithScore(urls[..], parse, s) == WithScore(old(urls[..]), parse, s)
    {
      SwapKeepsRuns(urls[..], j, parse);
      SwapAdjacent(urls, j);
      j := j - 1;
    }
  }

  method SwapAdjacent(urls: array<string>, j: int)
    requires 0 < j < urls.Length
    modifies urls
    ensures urls[..] == old(urls[..])[j - 1 := old(urls[j])][j := old(urls[j - 1])]
    ensures multiset(urls[..]) == multiset(old(urls[..]))
  {
    urls[j - 1], urls[j] := urls[j], urls[j - 1];
  }

  /** In a sorted list the first URL scores highest and the last lowest. */
  lemma SortedEnds(urls: seq<string>, parse: Parser)
    requires SortedByRisk(urls, parse) && |urls| > 0
    ensures forall u | u in urls :: RiskScore(urls[0], parse) >= RiskScore(u, parse) >= RiskScore(urls[|urls| - 1], parse)
  {
    hide RiskScore;
    forall u | u in urls
      ensures RiskScore(urls[0], parse) >= RiskScore(u, parse) >= RiskScore(urls[|urls| - 1], parse)
    {
      var k :| 0 <= k < |urls| && urls[k] == u;
    }
  }
}
