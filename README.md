# testUrlNet risk scanners in Dafny

testUrlNet is a web service that rates URLs, uploaded files and Excel
workbooks for risk. This project models the heuristic core of that service
and proves properties of it:

- **Spreadsheet scanner** (`excel_scanner.dfy`, module `ExcelScanner`). An
  abstract workbook is walked sheet by sheet, row by row and cell by cell.
  Every textual form of a cell is matched against the DDE, command,
  dangerous-function and protocol tables. Each match records an issue, and the
  risk score is the sum of the recorded issues' fixed weights. The
  recommendations follow from the result.
- **File scanner** (`file_scanner.dfy`, `file_verdict.dfy`, `scan_route.dfy`,
  `file_risk_level.dfy`). It covers:
  - the extension and file-name tables, the `MZ` and ZIP signatures, the
    keyword-weighted file score and the malware vote;
  - the result record and its recommendations;
  - the archive loop and the upload handler;
  - the library variant of the level, with its `critical` level and the
    workbook score.
- **URL classifier** (`url_check.dfy`, `url_route.dfy`, `url_utils.dfy`). It
  covers:
  - the suspicious-pattern table, the host tests and the additive score;
  - the recommendations;
  - the redirect-following loop over an abstract HEAD-response oracle;
  - the request handler's normalisation and validation;
  - the URL utility list operations: dedupe, group and sort.
- **State keepers**:
  - `storage.dfy`: the in-memory cache with TTL and least-recently-accessed
    eviction, and the history and bookmark lists;
  - `error_handling.dfy`: the logger buffer, its summary, the error report
    mapping and the retry loop;
  - `metrics.dfy`: the metrics store's sliding windows, its daily API
    counters and its POST dispatch.

`text.dfy` (module `Text`) holds string helpers shared by all modules: the
`Option` type, splitting and joining, ASCII case mapping and number printing.

Every regular expression of the source is an explicit predicate. Foreign code
is a parameter of the function that calls it:

- the WHATWG URL parser and relative resolution;
- `fetch` responses;
- the spreadsheet parser, the hashes, ZIP extraction and CP949 recovery;
- the clock.

Source paths below are relative to the repository root.

## Model

| member | source | states |
|---|---|---|
| ExcelScanner.ScanExcelFile | lib/excel-security-scanner.ts:116-418 | An unreadable workbook gives the fixed one-issue, score 5, medium result. Otherwise the issues are exactly the workbook's issues in scan order, the counters are the counts over the workbook, and the flags and score agree with the recorded issues. |
| ExcelScanner.UnreadableConsistent | lib/excel-security-scanner.ts:134-156 | The parse-failure result satisfies the scan invariant (score = weights of its one issue) and its level is the level of its score. |
| ExcelScanner.TallyMeaning | lib/excel-security-scanner.ts:174-404 | The tally of an issue list has the score equal to the sum of per-issue weights. Each `has…` flag holds iff an issue of that kind is present. |
| ExcelScanner.LevelFor | lib/excel-security-scanner.ts:407-415 | Critical iff score ≥ 15, high iff 10-14, medium iff 5-9, low below 5. There is no cap. |
| ExcelScanner.WorkbookAtMostOne | lib/excel-security-scanner.ts:211-230 | A whole workbook yields at most one hidden-rows issue, however many hidden rows its sheets have. |
| ExcelScanner.HasMarkedMeans | lib/excel-security-scanner.ts:211-224 | The dedup test holds iff some earlier issue's description carries the hidden-rows marker. |
| ExcelScanner.PatternIssuesMeans | lib/excel-security-scanner.ts:274-305 | A candidate yields at most one DDE and at most one command issue, and yields one iff some table entry matches the lower-cased text. |
| ExcelScanner.FunctionIssuesMeans | lib/excel-security-scanner.ts:308-322 | At most one dangerous-function issue. There is none iff no listed name occurs in the upper-cased text. Otherwise the issue names the first listed one and is critical iff that is CALL, REGISTER, EXEC or SHELL. |
| ExcelScanner.ProtocolIssuesMeans | lib/excel-security-scanner.ts:325-344 | At most one link issue. There is one iff the text looks like a link and contains a listed protocol. Its severity is critical iff the first matching protocol is `file://` or `\\`. |
| ExcelScanner.CandidateOnePerKind | lib/excel-security-scanner.ts:268-345 | The issues of one candidate string have strictly increasing kinds (DDE, command, function, link), so there is at most one of each kind. |
| ExcelScanner.CubeSetCountShadowed | lib/excel-security-scanner.ts:62-78 | CUBESETCOUNT is never reported, because CUBESET precedes it in the table and is contained in it. |
| ExcelScanner.FirstContainedMeans | lib/excel-security-scanner.ts:308-341 | The first-match search returns the least index of a contained table entry, or none when no entry is contained. |
| ExcelScanner.AnyMatchesMeans | lib/excel-security-scanner.ts:274-305 | The table test holds iff some entry matches. |
| ExcelScanner.VectorIsDde | lib/excel-security-scanner.ts:40 | `cmd\|"/c calc.exe"!A1` yields exactly one critical DDE issue located at the cell. |
| ExcelScanner.VectorIsCommand | lib/excel-security-scanner.ts:81-96 | The same vector also yields exactly one command-injection issue. |
| ExcelScanner.VectorIsLink | lib/excel-security-scanner.ts:241-255 | The same vector counts once as an external link, since it contains `!`. |
| ExcelScanner.ScanSheets | lib/excel-security-scanner.ts:187-265 | The sheet loop appends exactly the sheets' issues and adds the sheets' formula and link counts, and sets the hidden-rows/columns flag iff some sheet has one. |
| ExcelScanner.ScanRows | lib/excel-security-scanner.ts:206-230 | The row loop of a sheet appends exactly that sheet's row issues, with the hidden-rows dedup across the workbook. |
| ExcelScanner.ScanCells | lib/excel-security-scanner.ts:233-265 | The column loop appends the cells' candidate and hyperlink issues and adds their formula and link counts. |
| ExcelScanner.ScanNames | lib/excel-security-scanner.ts:386-404 | Auto-run defined names add one issue each, weight 10. |
| ExcelScanner.CollectCandidates | lib/excel-security-scanner.ts:238-255 | The candidate strings of a cell are its non-empty `f`, `v`, `w`, `h` forms in that order, and formulas count `f` plus string values starting with `=`. |
| ExcelScanner.AdviceMeans | lib/excel-security-scanner.ts:424-471 | Each advice block's opening line is in the recommendations iff the block's condition holds for the result. |
| ExcelScanner.LevelAdviceFirst | lib/excel-security-scanner.ts:424-440 | A critical or high result starts with its level's three lines. |
| ExcelScanner.CleanAdvice | lib/excel-security-scanner.ts:465-468 | A low result with no issues and no flags gets exactly the two "passed" lines. |
| ExcelScanner.EmptyScanIsLow | lib/excel-security-scanner.ts:158-172 | A consistent result with no issues scores 0, is low and has the macro, DDE, command, object and hidden-sheet flags false. Without links and hidden rows or columns as well, its advice is the two "passed" lines. |
| ExcelScanner.CleanWorkbookSilent | lib/excel-security-scanner.ts:116-418 | A workbook records no issue when all of these hold: no macros or objects; no auto-run name; no shown sheet or row is hidden; no cell form matches the DDE, command or function tables; no link-like form or hyperlink names a listed protocol. |
| ExcelScanner.CleanWorkbookPasses | lib/excel-security-scanner.ts:116-418 | The scan of such a clean workbook has no issue, score 0, level low and every issue flag false. The link flag is set iff links were counted. With no links and no hidden rows or columns, the advice is exactly the two "passed" lines. |
| FileScanner.GuessMimeType | app/api/scan-file/route.ts:85-108 | The result is the table entry for the lower-cased extension, or `application/octet-stream` when the table has none. |
| FileScanner.MimeTypeOfName | app/api/scan-file/route.ts:85-108 | For a name ending in `.e` with `e` in the table, the pair (`e` lower-cased, result) is a table entry. |
| FileScanner.MimeTypeAgrees | app/api/scan-file/route.ts:85-108 | The object-literal lookup as written agrees with the corrected lookup on every extension that is not an inherited member name. |
| FileScanner.ConstructorIsNotAMimeType | app/api/scan-file/route.ts:85-108 | As written, `report.constructor` yields the inherited `constructor` member, not a MIME string. |
| FileScanner.ExtensionOfName | app/api/scan-file/route.ts:86 | `path.extname`: the extension of `stem.e` is `e` when the stem is non-empty and does not end in `/`. |
| FileScanner.ExtensionOfDotName | app/api/scan-file/route.ts:86 | A base name whose only dot is leading has an empty extension. |
| FileScanner.ExtensionDescriptionMeans | app/api/scan-file/route.ts:181-197 | `ExtensionDescription` gives a listed extension its own table entry (each entry is non-empty) and any other extension the generic executable text. |
| FileScanner.CheckSuspiciousPatterns | app/api/scan-file/route.ts:110-178 | The findings are the extension, name, double-extension, PE, ZIP, DOS and nested parts in that order, each present exactly under its condition. |
| FileScanner.DangerousExtensionReported | app/api/scan-file/route.ts:115-117 | A dangerous-extension finding is present iff the extension is in the suspicious list. |
| FileScanner.SuspiciousNameTail | app/api/scan-file/route.ts:47-55 | Every name the file-name patterns accept ends in `.e` with `e` a listed executable suffix. |
| FileScanner.ZipNotListed | app/api/scan-file/route.ts:38-44 | `zip` is not a suspicious extension, so the spoofed-ZIP wording is only reached for unlisted archives. |
| FileVerdict.PatternWeight | app/api/scan-file/route.ts:203-214 | A finding weighs between 2 and 8. It weighs the default 2 iff it contains none of the keywords. |
| FileVerdict.FindingsTally | app/api/scan-file/route.ts:110-178 | The weight of a file's findings is 5, 4, 6, 2, 2, 2 or 7 per present part. The disguise, name, double and nested traits hold exactly when their parts do. This holds for names free of the keyword syllables. |
| FileVerdict.TallyMeans | app/api/scan-file/route.ts:199-218 | The tally of findings has weight = summed keyword weights and each trait iff some finding contains its keyword. |
| FileVerdict.CalculateRiskLevel | app/api/scan-file/route.ts:199-218 | The level comes from the raw sum (high ≥ 8, medium ≥ 4). The score is min(10, sum) and lies in [0, 10]. Malware makes the result high and 10. |
| FileVerdict.MalwareExactly | app/api/scan-file/route.ts:270-292 | For keyword-free names, malware is detected iff the extension is listed and the name matches a file-name pattern. |
| FileVerdict.DeceptiveNameIsMalware | app/api/scan-file/route.ts:48-55 | A file-name pattern hit with a real extension forces the malware vote. |
| FileVerdict.HiddenExecutableInFolderIsNotMalware | app/api/scan-file/route.ts:120-125 | `scan/.exe` matches a file-name pattern but has an empty extension, so malware is not detected. |
| FileVerdict.CollectIndicators | app/api/scan-file/route.ts:270-292 | One indicator per holding condition. Malware is detected iff at least two hold. |
| FileVerdict.ScanFile | app/api/scan-file/route.ts:258-339 | The scan result is the specification record for the name, bytes, digests and scan time. |
| FileVerdict.ScanScore | app/api/scan-file/route.ts:292-308 | For a name free of the keyword syllables 헤, 압, 험, 중, 턴, 텁 and 위 (`KeywordFree`): size is the byte length; the type is the extension or `unknown`; the archive flag holds iff the extension is an archive one; malware holds iff the extension is suspicious and the name deceptive; score and level are those of the raw malware-plus-findings sum. |
| FileVerdict.NoFindingsIsLow | app/api/scan-file/route.ts:221-255 | A file with no findings is low with score 0 and gets the two "passed" lines. |
| FileVerdict.DeceptiveNameScan | app/api/scan-file/route.ts:221-229 | A deceptive name that has a non-empty extension yields high, 10 and the antivirus advice. |
| FileVerdict.NoArchiveAlarm | app/api/scan-file/route.ts:250-252 | The single-file scan never emits the archive alarm. |
| FileVerdict.PeNeverAnnounced | app/api/scan-file/route.ts:246-248 | For a name free of the keyword syllables 헤, 압, 험, 중, 턴, 텁 and 위 (`KeywordFree`), the PE advice is not emitted and the scan details do not mention a PE header. |
| FileVerdict.AdviceMeans | app/api/scan-file/route.ts:221-255 | The first line follows the level. The antivirus line is present iff the result is high with malware. The nested, double-extension and archive lines are present iff their conditions hold. |
| FileVerdict.GenerateRecommendations | app/api/scan-file/route.ts:221-255 | The pushed lines are the specification advice for the result. |
| FileVerdict.RecordDetails | app/api/scan-file/route.ts:316-328 | The scan details start with the hash, header and extension lines and are the specification details. |
| FileRiskLevel.CalculateRiskLevel | lib/calculate-risk-level.ts:1-26 | The level is that of the total (≥10 critical, ≥8 high, ≥4 medium). The score is min(10, total). |
| FileRiskLevel.TotalBounds | lib/calculate-risk-level.ts:5-21 | The total is at least the heuristic score and at least the workbook score when given. Malware makes it critical. |
| FileRiskLevel.LevelMonotone | lib/calculate-risk-level.ts:23 | A larger raw score never gives a lower level. |
| FileRiskLevel.AddingPatternKeepsLevel | lib/calculate-risk-level.ts:5-23 | Adding a pattern never lowers the level. |
| FileRiskLevel.MalwareKeepsLevel | lib/calculate-risk-level.ts:5-23 | Malware gives critical, and setting it never lowers the level. |
| ScanRoute.ScanArchiveContents | app/api/scan-file/route.ts:342-384 | The results are the scans of the non-directory entries with data, in entry order. A failed extraction gives no results. |
| ScanRoute.ArchiveResultsAreScans | app/api/scan-file/route.ts:351-377 | There is one result per scannable entry, and it is that entry's scan. |
| ScanRoute.FilesMembers | app/api/scan-file/route.ts:351-358 | An entry is scanned iff it is in the archive and is a file with data. |
| ScanRoute.EntryName | app/api/scan-file/route.ts:359-365 | A name without mojibake is used as is. |
| ScanRoute.AlarmMissedAsWritten | app/api/scan-file/route.ts:331-412 | As written, an archive holding a deceptive executable gets contents with malware but no archive alarm. |
| ScanRoute.AlarmRaised | app/api/scan-file/route.ts:250-252 | In the corrected handler, the archive alarm is present iff the upload is an archive whose contents hold malware. |
| ScanRoute.Post | app/api/scan-file/route.ts:386-425 | The handler's response is the specification response for the form. Archive contents are attached after the recommendations were generated. When the archive libraries cannot load, the failure finding is appended instead. |
| ScanRoute.PostOutcome | app/api/scan-file/route.ts:386-425 | An empty file list gives 400. An unreadable form or an unreadable file gives 500. Otherwise there is one result per file, and each is that file's result as the route builds it. |
| ScanRoute.UploadResultsAreScans | app/api/scan-file/route.ts:400-415 | Result i is upload i's result as the route builds it: its scan, then its archive contents or the failure finding. |
| ScanRoute.UploadResultMeans | app/api/scan-file/route.ts:400-415 | An upload's result is its single-file scan, changed only in the archive contents and the findings. Its recommendations are the file's own and never include the archive alarm. An archive gets contents iff the libraries load; the contents are empty when the archive cannot be opened. Otherwise the archive gets the finding `압축 파일 스캔 실패`. |
| UrlCheck.FindSuspiciousPatterns | app/api/check-url/route.ts:268-279 | The found names are those of the table patterns matching the URL plus a space plus the title, in table order. |
| UrlCheck.FoundMeans | app/api/check-url/route.ts:268-279 | A name is found iff some table pattern with that name matches. |
| UrlCheck.FoundDistinct | app/api/check-url/route.ts:268-279 | The found names are distinct and no more than the table has. |
| UrlCheck.DottedQuadReported | app/api/check-url/route.ts:26-36 | A URL with a dotted quad reports the IP pattern. |
| UrlCheck.NoRangeCheck | app/api/check-url/route.ts:256-260 | `999.999.999.999` counts as an IP address, since there is no 255 check. |
| UrlCheck.BracketedIPv6Rejected | app/api/check-url/route.ts:256-260 | A bracketed host is not an IPv6 address for this test. |
| UrlCheck.ShortenerTestsAgree | app/api/check-url/route.ts:263-265 | The route's shortener test agrees with the utility's containment test on the parsed host. |
| UrlCheck.CalculateRiskScore | app/api/check-url/route.ts:282-322 | The level comes from the unclamped sum (≤2 low, 3-6 medium, ≥7 high). The score is min(sum, 10). |
| UrlCheck.RiskScoreLevels | app/api/check-url/route.ts:282-322 | No SSL plus an IP host is high. Malware or phishing is never low, and both together are high. |
| UrlCheck.CleanSiteIsLow | app/api/check-url/route.ts:282-322 | A site with SSL and no finding scores 0 and is low. |
| UrlCheck.RiskScoreMonotone | app/api/check-url/route.ts:282-313 | Each extra pattern adds exactly 1 and never lowers the level. |
| UrlCheck.GenerateRecommendations | app/api/check-url/route.ts:325-381 | The pushed lines are the specification recommendations. |
| UrlCheck.RecommendationsEnd | app/api/check-url/route.ts:372-378 | There are between 1 and 12 lines. The last is the overall line for the level, and no earlier line is an overall line. |
| UrlRoute.AnalyzeHTTPResponse | app/api/check-url/route.ts:46-130 | The analysis is the specification analysis of the tracked redirect loop and the title fetch. |
| UrlRoute.TrackOutcome | app/api/check-url/route.ts:65-94 | The tracked state is an outcome of the loop. Each redirect entry is the URL before a followed 3xx with a Location header. The final URL is the last resolved one. A throw keeps what was collected. |
| UrlRoute.AnalysisOutcome | app/api/check-url/route.ts:59-117 | At most 5 redirects. No redirect means the final URL is the input. The status stays absent when no response arrived. |
| UrlRoute.AlwaysRedirecting | app/api/check-url/route.ts:65-94 | A server that always redirects yields exactly 5 redirects. |
| UrlRoute.CheckSSL | app/api/check-url/route.ts:225-243 | Secure iff the URL starts with `https://` and the probe answered below 500. |
| UrlRoute.VirusTotal | app/api/check-url/route.ts:151-182 | No report gives neither verdict. Malware holds iff there is a report with at least one malicious engine. Phishing holds iff there is a report with at least three suspicious engines. |
| UrlRoute.ResolveShortURL | app/api/check-url/route.ts:133-148 | A target comes only from a 3xx answer with a Location header, and is that header's value. Every 3xx answer with a Location header yields its value. |
| UrlRoute.NormalizeURL | app/api/check-url/route.ts:425-428 | The result has an http(s) scheme. It is the input when that already has one, and `https://` + input otherwise. |
| UrlRoute.Post | app/api/check-url/route.ts:413-511 | The handler's response is the specification response. |
| UrlRoute.Collect | app/api/check-url/route.ts:440-500 | The assembled analysis is the specification findings for the normalised URL and its domain. |
| UrlRoute.CheckURLStatus | app/api/check-url/route.ts:413-437 | A falsy `url` gives 400. A non-empty string gives 400 when its normalised form does not parse, and a report when it does. An unreadable body or a truthy non-string gives 500. |
| UrlRoute.ReportHolds | app/api/check-url/route.ts:458-500 | Every report has score in [0, 10], the level rules above, and recommendations ending with the overall line. |
| UrlRoute.EstimateDomainAge | app/api/check-url/route.ts:384-410 | 5000 days for a host containing a known old domain. Otherwise 0-29 days for a free top-level domain, 10-69 for five digits in a row, and 90-454 for any other host. |
| UrlRoute.EveryAgeDrawn | app/api/check-url/route.ts:396-407 | Every age in a host's range comes from some random draw, so the ranges are exact. |
| UrlRoute.DomainAgePoints | app/api/check-url/route.ts:384-410 | The age earns no risk points for a known old domain or an ordinary host, 3 for a free top-level domain, and 1 or 3 for a run of digits. |
| UrlRoute.DomainAgeReported | app/api/check-url/route.ts:439-455 | Every report carries the estimate for the parsed host: 5000 days and no age points when the host contains a known old domain. |
| UrlRoute.GoogleIsOld | app/api/check-url/route.ts:387-393 | `www.google.com` is 5000 days old whatever the draw. |
| UrlRoute.PlainHttpIPIsHigh | app/api/check-url/route.ts:413-500 | `http://192.168.1.1` is reported without SSL, as an IP, high, with score above 5. |
| UrlRoute.SchemePrepended | app/api/check-url/route.ts:425-437 | `invalid-url` is rejected iff `https://invalid-url` does not parse. |
| UrlUtils.PrefixScheme | lib/url-utils.ts:38-41 | The result has an http(s) scheme. A URL with one is unchanged, and otherwise `https://` is prepended. |
| UrlUtils.ParseURL | lib/url-utils.ts:22-74 | The filled record is the specification parse. |
| UrlUtils.ParsedMeans | lib/url-utils.ts:22-74 | Valid iff the prefixed, trimmed input parses. Invalid gives the empty record. Secure iff valid with protocol `https:`. |
| UrlUtils.HostRecombines | lib/url-utils.ts:57-67 | For a non-IP host with ≥2 labels: the TLD is the last label, the domain ends with it, and subdomain + `.` + domain gives back the host. |
| UrlUtils.UnsafeURLs | lib/url-utils.ts:79-99 | A dangerous scheme or an unsafe host makes the URL unsafe. |
| UrlUtils.SameDomainIsEquivalence | lib/url-utils.ts:104-109 | Same-domain is symmetric and transitive, and reflexive exactly on valid URLs. |
| UrlUtils.ShortenURL | lib/url-utils.ts:114-133 | `maxLength` defaults to 50. A short URL is returned as is. A long valid URL comes back within `maxLength` (for `maxLength` ≥ 3). A long invalid one becomes its first `maxLength` characters plus `...`. |
| UrlUtils.ShortURLByContainment | lib/url-utils.ts:161-170 | Invalid URLs are never short. The test is by substring, so `netflix.com` counts as a shortener through `x.co`. |
| UrlUtils.AssessmentIsAdditive | lib/url-utils.ts:175-228 | The score is the sum of the present factors' weights, at most 19, with at most 7 factors. The level is that of the score. |
| UrlUtils.PlainIPIsHigh | lib/url-utils.ts:175-228 | An http URL with an IP host is high, with the http and IP factors and without the invalid one. |
| UrlUtils.CleanURLIsLow | lib/url-utils.ts:175-228 | A clean https URL has score 0, no factors and level low. |
| UrlUtils.GetFileExtension | lib/url-utils.ts:257-267 | None iff the path has no `.` or ends with one. Otherwise the dot-free, non-empty, lower-cased suffix after the last dot. |
| UrlUtils.ImageHasImageExtension | lib/url-utils.ts:248-252 | An image URL's file extension is one of the image extensions. |
| UrlUtils.DeduplicateURLs | lib/url-utils.ts:233-243 | The kept list is the specification dedupe. |
| UrlUtils.DeduplicatedMeans | lib/url-utils.ts:233-243 | The result is an order-preserving subsequence with the same host keys and no two entries sharing a key. |
| UrlUtils.DeduplicatedKeepsFirst | lib/url-utils.ts:233-243 | The first URL for each host key is kept. |
| UrlUtils.DeduplicatedDropsRepeats | lib/url-utils.ts:233-243 | Every kept URL is the first one with its host key. |
| UrlUtils.GroupURLsByDomain | lib/url-utils.ts:300-314 | The filled map is the corrected grouping. |
| UrlUtils.GroupedMeans | lib/url-utils.ts:300-314 | The keys are exactly the URLs' domain-or-host keys. Each group lists that key's URLs in input order. |
| UrlUtils.WithKeyMeans | lib/url-utils.ts:300-314 | A URL is in a key's group iff it is an input with that key. |
| UrlUtils.GroupedAsWrittenAgrees | lib/url-utils.ts:300-314 | As written, the grouping throws iff some key is an inherited member name, and otherwise equals the corrected grouping. |
| UrlUtils.ConstructorHostThrows | lib/url-utils.ts:307-310 | `http://constructor` makes the as-written grouping throw. The corrected one groups it under `constructor`. |
| UrlUtils.SortURLsByRisk | lib/url-utils.ts:319-325 | The array ends up a permutation of its old contents with non-increasing risk scores. The URLs of each score keep their old order, as the stable `Array.prototype.sort` keeps them. |
| UrlUtils.SwapKeepsRuns | lib/url-utils.ts:319-325 | Swapping two neighbours with different scores keeps the URLs of each score in order. |
| UrlUtils.SortedRunsDetermine | lib/url-utils.ts:319-325 | Two lists sorted by risk with the same URLs of each score in the same order are equal, so the sorted result is fully determined. |
| UrlUtils.SortedEnds | lib/url-utils.ts:319-325 | The first URL of a sorted list has the highest score and the last the lowest. |
| Storage.MemoryCache.constructor | lib/storage.ts:26-29 | A new cache is empty, with the given size and TTL, or 100 entries and 300000 ms when omitted. |
| Storage.MemoryCache.Set | lib/storage.ts:31-47 | A full cache first evicts. The entry is then stored with hits 0, timestamp = last access = now, and expiry = now + (ttl or default). A new key goes last. |
| Storage.MemoryCache.Get | lib/storage.ts:49-66 | A missing key gives none. An expired key gives none and is deleted. A hit returns the data, adds one hit, sets the last access to now, and changes no other entry. |
| Storage.MemoryCache.Has | lib/storage.ts:68-79 | Present iff stored and not expired. An expired entry is deleted. Hits and access times never change. |
| Storage.MemoryCache.Delete | lib/storage.ts:81-83 | Reports whether the key existed, and removes it. |
| Storage.MemoryCache.Clear | lib/storage.ts:85-87 | The cache is empty afterwards. |
| Storage.MemoryCache.Size | lib/storage.ts:89-91 | The number of stored keys. |
| Storage.MemoryCache.GetStats | lib/storage.ts:97-119 | The statistics are those of the stored entries. |
| Storage.MemoryCache.EvictOldest | lib/storage.ts:121-135 | The cache becomes the specification eviction of its old contents. |
| Storage.KeyCount | lib/storage.ts:89-91 | The map size equals the number of keys in insertion order. |
| Storage.OldestIsMinimal | lib/storage.ts:121-135 | The scan finds the least access time below now and a key holding it, or keeps `""` when none is older than now. |
| Storage.EvictsAtMostOne | lib/storage.ts:36-135 | Eviction removes nothing or exactly the entry accessed earliest, strictly before now, so the size can exceed the maximum. |
| Storage.EmptyKeySurvives | lib/storage.ts:126-134 | An oldest entry under the empty key is found but never deleted. |
| Storage.StatsMeans | lib/storage.ts:97-119 | The size is the key count. The oldest stamp is the earliest creation time, or `now` when none is earlier. The newest is the latest, or 0 when none is later. Every entry's hits are at most the total, and the total is 0 iff no entry was hit. |
| Storage.StatsHitsAppend | lib/storage.ts:106-108 | The total hits over two runs of entries is the sum of their totals. |
| Storage.HitAddsOne | lib/storage.ts:61-119 | A hit on a stored key raises the total hits by exactly one. |
| Storage.WithoutMeans | lib/storage.ts:411-471 | The URL filter keeps exactly the entries for other URLs, in order. |
| Storage.AddToHistoryMeans | lib/storage.ts:411-428 | 1 to 50 items. The new item is first and its URL occurs nowhere else. The rest is a prefix of the old list without that URL. |
| Storage.BookmarksRoundTrip | lib/storage.ts:452-471 | Adding a saved URL is a no-op. Adding a new one appends it, and removing it restores the list. Removing drops every entry for the URL and keeps the rest in order. |
| Storage.WithoutKeepsAll | lib/storage.ts:467-471 | Removing a URL no entry has changes nothing. |
| ErrorHandling.Severity | lib/error-handling.ts:3-9 | The enum values 0-4, DEBUG lowest and FATAL highest. |
| ErrorHandling.Newest | lib/error-handling.ts:148-150 | `slice(-max)`: the last min(n, length) entries. |
| ErrorHandling.NewestAppend | lib/error-handling.ts:145-150 | Trimming after every push equals trimming the whole accepted history. |
| ErrorHandling.AtLeastMeans | lib/error-handling.ts:345-350 | An entry is returned iff it is logged with level at least the given one. DEBUG returns everything. |
| ErrorHandling.AtLeastInOrder | lib/error-handling.ts:347 | The filtered entries keep their order. |
| ErrorHandling.CountsTally | lib/error-handling.ts:365-375 | The per-level counts sum to the number of entries. |
| ErrorHandling.CountsKeys | lib/error-handling.ts:365-375 | A level is counted iff some entry has it. |
| ErrorHandling.SortNewestFirstMeans | lib/error-handling.ts:377 | The sort yields a permutation in non-increasing timestamp order. |
| ErrorHandling.SummaryMeans | lib/error-handling.ts:360-384 | The total is the entry count and the counts sum to it. The recent errors are the first ≤10 ERROR/FATAL entries, newest first. |
| ErrorHandling.ExtractErrorInfo | lib/error-handling.ts:202-243 | Validation gives VALIDATION_ERROR/400 and rate limit gives RATE_LIMIT_ERROR/429. Network keeps its status with 2 recovery lines, or 3 when retryAfter is non-zero. Other errors give UNKNOWN_ERROR/500. The context defaults to `unknown`. |
| ErrorHandling.ContextOrUnknown | lib/error-handling.ts:238 | Never empty, and a given non-empty context is kept. |
| ErrorHandling.Logger.constructor | lib/error-handling.ts:107-116 | Level INFO and an empty buffer. |
| ErrorHandling.Logger.SetLevel | lib/error-handling.ts:122-124 | Only the level changes. |
| ErrorHandling.Logger.Log | lib/error-handling.ts:126-162 | An entry below the level is dropped. Otherwise it is appended and the buffer keeps the newest 1000 accepted entries. |
| ErrorHandling.Logger.LogError | lib/error-handling.ts:184-200 | Logs the extracted message and context at ERROR, when ERROR passes the level. |
| ErrorHandling.Logger.GetLogs | lib/error-handling.ts:345-350 | With a level, the entries at or above it. Without, all entries. |
| ErrorHandling.Logger.ClearLogs | lib/error-handling.ts:352-354 | The buffer is empty afterwards. |
| ErrorHandling.Logger.GetLogSummary | lib/error-handling.ts:360-384 | The counting loop yields the specification summary of the buffer. |
| ErrorHandling.WithRetry | lib/error-handling.ts:440-468 | The attempt loop yields the specification outcome and call count. |
| ErrorHandling.RetriedMeans | lib/error-handling.ts:448-467 | From any attempt: success iff some remaining attempt succeeds, and then it is the first one. Otherwise the last error is rethrown after one call per attempt. |
| ErrorHandling.WithRetryMeans | lib/error-handling.ts:440-468 | At most `maxRetries` calls. The first success is returned, or the last failure is rethrown, or the fixed error when `maxRetries` < 1. |
| Metrics.Since | app/api/metrics/route.ts:75-77 | The window filter keeps exactly the records newer than the cutoff. |
| Metrics.SinceAppend | app/api/metrics/route.ts:75-77 | Filtering distributes over concatenation. |
| Metrics.SinceTwice | app/api/metrics/route.ts:75-77 | Filtering twice equals filtering once by the later cutoff. |
| Metrics.AppendedIsNewest | app/api/metrics/route.ts:67-78 | After a push at `now`, the window is the old window plus the new record, which is last. |
| Metrics.Counted | app/api/metrics/route.ts:104-115 | A stale counter is reset to now and then incremented. Otherwise it is incremented. `today` ≥ 1 afterwards. |
| Metrics.StatusOf | app/api/metrics/route.ts:222-237 | Unavailable iff no key. Rate-limited iff a key and today ≥ the limit (1000 or 10000). Available otherwise. |
| Metrics.UrlSetSize | app/api/metrics/route.ts:213-216 | The unique URLs number between 1 and the analyses when there are any. |
| Metrics.UrlSetMembers | app/api/metrics/route.ts:213-216 | A URL is unique-counted iff some analysis has it. |
| Metrics.RoundedPercent | app/api/metrics/route.ts:217-219 | The nearest whole percentage, at most 100. |
| Metrics.MetricsStore.constructor | app/api/metrics/route.ts:58-65 | Empty windows and zero counters reset at now. |
| Metrics.MetricsStore.AddRequest | app/api/metrics/route.ts:67-78 | The requests become the old ones plus the new one within 24 hours. Nothing else changes. |
| Metrics.MetricsStore.AddUrlAnalysis | app/api/metrics/route.ts:80-90 | The same with a 7-day window. |
| Metrics.MetricsStore.AddError | app/api/metrics/route.ts:92-102 | The same with a 24-hour window. |
| Metrics.MetricsStore.IncrementApiCall | app/api/metrics/route.ts:104-115 | The named API's counter is counted at now. The other counter and the windows are unchanged. |
| Metrics.MetricsStore.GetApiStatus | app/api/metrics/route.ts:222-237 | The status rules above on the stored counter. |
| Metrics.MetricsStore.CalculateCacheHitRate | app/api/metrics/route.ts:208-220 | In [0, 100]. It is 0 with no requests or no analyses, and otherwise the nearest percentage of repeated URLs. |
| Metrics.NoRepeatsNoHits | app/api/metrics/route.ts:208-220 | Distinct analysed URLs give a hit rate of 0. |
| Metrics.Post | app/api/metrics/route.ts:285-321 | Recorded iff the body parses, the action is known, data is present, and an API call names a known API or an inherited member. An unknown action is 400 and leaves the store unchanged. Each recorded action appends its record at `now` to its own list and trims the list to its window: 24 hours for requests and errors, 7 days for analyses. An API call instead counts one call of the named service. The rest of the store is unchanged. |

## Left out

- All network I/O is modelled as oracles passed in as parameters:
  - the HEAD and GET fetches of the redirect loop and the title fetch;
  - the VirusTotal, Safe Browsing and SSL probes;
  - short-URL resolution.
  What the model does not capture is timing, retries inside `fetch`, and
  response bodies other than the fields used.
- The concurrent fan-out of the URL checks (`Promise.all`) and the
  `withTimeout` race are not modelled. Concurrency is outside the model.
- Domain age is partly fixed and partly random in the source. A host
  containing one of the ten known old domains always gets 5000 days
  (`EstimateDomainAge`). Any other host gets a `Math.random` draw in the
  range its name selects. The draw is a parameter of the model (`ageRoll`).
  `Date.now`, scan time and response time are parameters too.
- UrlCheck's analysis keeps `domainAge` as an optional number, as in the
  source's type. The handler always fills it in, because `estimateDomainAge`
  has nothing that can throw and so never returns `null`.
- These foreign libraries are opaque functions of their inputs:
  - the spreadsheet parser (`XLSX.read`, `decode_range`, `encode_cell`): the
    workbook and its A1 addresses are abstract;
  - the MD5/SHA-1/SHA-256 hashes;
  - ZIP extraction (`adm-zip`) and CP949 name recovery (`iconv-lite`);
  - the WHATWG URL parser and relative resolution;
  - `btoa`.
- `sanitizeURL`, `parseQueryParams` and `resolveRelativeURL` are left out.
  They are thin wrappers over the WHATWG URL classes.
- `getMetrics`, GET and OPTIONS of the metrics route are left out. They
  compute floating-point averages, percentiles and memory percentages.
- Performance observers are left out. `formatFileSize` is left out because it
  uses `Math.log`.
- The browser plumbing is left out: local storage and `StorageManager`,
  console output, Sentry and gtag, the global error listeners, session ids
  and stack capture.
- The health-check and screenshot routes are left out, as are the pages, the
  components and the configuration files.
- Text.ToLower: maps ASCII letters only, while `toLowerCase` in the source is
  full Unicode. Text.ToUpper is the same.
- Metrics.MetricsStore.CalculateCacheHitRate: rounds the exact rational to
  the nearest integer, with halves rounded up. The source rounds a float,
  which can fall just below an exact half (29 repeats of 200 analyses), so
  those inputs may differ by one.
- Metrics.MetricsStore.AddRequest: takes one `now`. The source reads the clock
  twice, once for the stamp and once for the cutoff.
- Metrics.MetricsStore.AddUrlAnalysis: takes one `now`. The source reads the
  clock twice here as well.
- Metrics.MetricsStore.AddError: takes one `now`. The source reads the clock
  twice here as well.
- Metrics.Post: the payload fields are typed strings and numbers. Malformed
  JSON and missing fields other than `data` and `api` count as an unparsed
  body.
- FileVerdict.ScanFile: the record's `mimeType` uses the corrected own-key
  lookup `GuessMimeType` (see Findings). For an extension such as
  `constructor`, the model records `application/octet-stream`, where the
  source stores the inherited `Object` function. `ScanResultFor`, which
  specifies it, does the same.
- Text.Take: counts Unicode scalar values. JavaScript's `substring` and
  `length` count UTF-16 code units, so the two differ for text outside the
  Basic Multilingual Plane (30 emoji cut at 50 units keep 25 in the source).
- UrlRoute.VirusTotal: follows the code's test of more than two suspicious
  engines (app/api/check-url/route.ts:174). The comment on that line speaks
  of two or more.
- UrlUtils.ShortenURL: its length tests and cuts count Unicode scalar
  values, not UTF-16 code units, so results differ for URLs holding
  characters outside the Basic Multilingual Plane.
- ExcelScanner.DdeIssues: the 100-character excerpt kept as an issue's raw
  content (also in `CommandIssues`, `FunctionIssues`, `ProtocolIssues` and
  the `Check…` methods) counts Unicode scalar values, not UTF-16 code units.
- ErrorHandling.WithRetry: the delays between attempts and the log lines
  written along the way are not modelled. A rejection is always an error
  object here. In the source, a rejection with `null` or `undefined` makes
  the warning line's `lastError.message` throw a TypeError at once, with no
  further attempts. When the last rejection is another falsy value (`0`,
  `""`), the source throws "Unexpected error in retry logic". The model
  retries and rethrows in both cases.
- Storage.MemoryCache.Set: passes its own `now` on to the eviction. The
  source's `evictOldest` reads the clock again, so an entry last accessed in
  the millisecond of the call can be evicted there and not here.
- ErrorHandling.Logger.Log: metadata, stack, user agent and page URL are not
  recorded in entries, and the console, remote and local-storage side outputs
  are omitted.
- UrlUtils.ParseURL: the parser's outputs (protocol, hostname, path, port)
  come from the parser parameter. Only the trimming, the scheme prefix and the
  host splitting are modelled.
- FileVerdict.CollectIndicators: follows the code's test of at least two
  indicators (app/api/scan-file/route.ts:292). The comment on the line
  before it speaks of three or more.
- Three test expectations contradict the code and are not turned into
  properties:
  - `invalid-url` is accepted after `https://` is prepended;
  - one recommendation is never emitted;
  - `fetch` errors are caught by the route.

## Findings

| source | as written | input that shows it | evidently intended | confidence | as-written member | corrected member |
|---|---|---|---|---|---|---|
| app/api/scan-file/route.ts:85-108 | `mimeTypes[ext] \|\| 'application/octet-stream'` also finds members inherited from `Object.prototype` | `report.constructor` returns the `Object` constructor function instead of a MIME string | only the table's own entries; everything else is `application/octet-stream` | not executed; high | FileScanner.ConstructorIsNotAMimeType | FileScanner.GuessMimeType |
| app/api/scan-file/route.ts:331-412 | recommendations are generated inside `scanFile`, before the handler sets `archiveContents` | a ZIP upload containing `scan.exe`: its contents report malware, yet the archive alarm line is missing | the alarm appears whenever an archive's contents contain malware | not executed; high | ScanRoute.AlarmMissedAsWritten | ScanRoute.AlarmRaised |
| lib/url-utils.ts:300-314 | `groups[domain]` on a plain object finds inherited members, and `.push` on them throws | `groupURLsByDomain(["http://constructor"])` throws a TypeError | every URL grouped under its key | not executed; high | UrlUtils.ConstructorHostThrows | UrlUtils.GroupURLsByDomain |
