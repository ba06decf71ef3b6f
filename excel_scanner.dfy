/**
 * The spreadsheet threat scanner (`scanExcelFile`, `generateExcelRecommendations`).
 *
 * The workbook is the abstract outcome of the foreign parser: its sheets in
 * name order, each sheet's used range as rows of optional cells, and the
 * workbook-level macro, embedded-object and defined-name markers. Every textual
 * form of every cell (formula, string value, formatted text, HTML) is matched
 * against four fixed tables; each match records an issue and adds a fixed
 * weight to the running risk score, which is finally mapped to a level.
 *
 * The scan is written as the source writes it, imperatively (one method per
 * loop level), and is proved against functional specifications of the issue
 * list and counters; `Consistent` is the invariant every step keeps: the score
 * is the sum of the recorded issues' weights and each flag says whether an
 * issue of its kind was recorded.
 */
module ExcelScanner {
  import opened Text

  // ---------------------------------------------------------------------
  // The workbook, as the parser hands it over

  /** One cell. Text fields are "" when absent, falsy or not a string. */
  datatype Cell = Cell(
    formula: string,       // `f`
    value: string,         // `v`, when it is a string
    text: string,          // `w`
    html: string,          // `h`
    link: Option<string>)  // `l` present: its target ("" when the target is missing)

  datatype Row = Row(hidden: bool, cells: seq<Option<Cell>>)

  /**
   * A sheet in `SheetNames` order. `present` is false when the sheet map has no
   * entry for the name; `hidden` is the workbook metadata flag for the sheet;
   * `rows` is the used range; `hiddenCols` the column flags (missing = shown).
   */
  datatype Sheet = Sheet(name: string, present: bool, hidden: bool, rows: seq<Row>, hiddenCols: seq<bool>)

  /** `definedNames` holds each defined name's `Name` ("" when it has none). */
  datatype Workbook = Workbook(hasMacros: bool, sheets: seq<Sheet>, hasObjects: bool, definedNames: seq<string>)

  /** What the foreign parser returned: a workbook, or it threw. */
  datatype ParseOutcome = Parsed(workbook: Workbook) | Unreadable

  // ---------------------------------------------------------------------
  // Issues

  datatype IssueType = Macro | ExternalLink | HiddenContent | MaliciousFormula
                     | EmbeddedObject | DdeAttack | SuspiciousPattern | CommandInjection

  /** Issue severities; the same four words are the result's risk levels. */
  datatype Severity = Low | Medium | High | Critical

  datatype Location = Nowhere | SheetLoc(sheet: string) | CellLoc(sheet: string, row: nat, col: nat)

  /** Why an issue was recorded; it fixes the issue's type, severity, text and weight. */
  datatype Cause =
    | VbaMacro
    | HiddenSheet(sheet: string)
    | HiddenRowsCols
    | DdePattern
    | CommandPattern
    | DangerousFunction(func: string)
    | SuspiciousProtocol(protocol: string)
    | HyperlinkProtocol(protocol: string)
    | EmbeddedObjects
    | AutoRunName(name: string)
    | Unparseable

  /** `raw` is the stored excerpt of the offending text, when the source keeps one. */
  datatype Issue = Issue(cause: Cause, location: Location, raw: Option<string>)

  const CRITICAL_FUNCTIONS: seq<string> := ["CALL", "REGISTER", "EXEC", "SHELL"]

  /** The protocol forms that reach local files or network shares. */
  predicate IsLocalProtocol(p: string)
  {
    p == "file://" || p == "\\\\"
  }

  function Kind(c: Cause): IssueType
  {
    match c
    case VbaMacro => Macro
    case HiddenSheet(_) => HiddenContent
    case HiddenRowsCols => HiddenContent
    case DdePattern => DdeAttack
    case CommandPattern => CommandInjection
    case DangerousFunction(_) => MaliciousFormula
    case SuspiciousProtocol(_) => ExternalLink
    case HyperlinkProtocol(_) => ExternalLink
    case EmbeddedObjects => EmbeddedObject
    case AutoRunName(_) => SuspiciousPattern
    case Unparseable => SuspiciousPattern
  }

  function SeverityOf(c: Cause): Severity
  {
    match c
    case VbaMacro => Critical
    case HiddenSheet(_) => High
    case HiddenRowsCols => Medium
    case DdePattern => Critical
    case CommandPattern => Critical
    case DangerousFunction(f) => if f in CRITICAL_FUNCTIONS then Critical else High
    case SuspiciousProtocol(p) => if IsLocalProtocol(p) then Critical else High
    case HyperlinkProtocol(_) => High
    case EmbeddedObjects => Critical
    case AutoRunName(_) => Critical
    case Unparseable => Medium
  }

  /** The amount the source adds to `riskScore` when it records the issue. */
  function Weight(c: Cause): nat
  {
    match c
    case VbaMacro => 10
    case HiddenSheet(_) => 5
    case HiddenRowsCols => 3
    case DdePattern => 15
    case CommandPattern => 12
    case DangerousFunction(f) => if f in CRITICAL_FUNCTIONS then 10 else 6
    case SuspiciousProtocol(p) => if IsLocalProtocol(p) then 8 else 6
    case HyperlinkProtocol(_) => 4
    case EmbeddedObjects => 8
    case AutoRunName(_) => 10
    case Unparseable => 5
  }

  const HIDDEN_ROWS_MARK: string := "숨겨진 행/열"

  function Description(c: Cause): string
  {
    match c
    case VbaMacro => "VBA 매크로가 포함되어 있습니다"
    case HiddenSheet(s) => "숨겨진 시트 발견: " + s
    case HiddenRowsCols => "숨겨진 행/열이 발견되었습니다"
    case DdePattern => "DDE 공격 패턴이 감지되었습니다"
    case CommandPattern => "명령어 실행 패턴이 감지되었습니다"
    case DangerousFunction(f) => "위험한 함수 사용: " + f
    case SuspiciousProtocol(p) => "의심스러운 외부 링크: " + p
    case HyperlinkProtocol(p) => "하이퍼링크 발견: " + p
    case EmbeddedObjects => "내장된 객체가 발견되었습니다"
    case AutoRunName(n) => "의심스러운 자동 실행 이름 발견: " + n
    case Unparseable => "엑셀 파일 형식이 손상되었거나 알 수 없는 형식입니다"
  }

  /**
   * What the hidden-row check looks for among the issues already recorded: an
   * issue of the hidden-content type whose description contains the marker text.
   */
  predicate MarkedByText(i: Issue)
  {
    Kind(i.cause) == HiddenContent && Contains(Description(i.cause), HIDDEN_ROWS_MARK)
  }

  /**
   * The same test, stated on the cause (see `MarkedMeansText`): a hidden-rows
   * issue, or a hidden-sheet issue whose sheet name contains the marker.
   */
  predicate Marked(i: Issue)
  {
    i.cause.HiddenRowsCols? || (i.cause.HiddenSheet? && Contains(i.cause.sheet, HIDDEN_ROWS_MARK))
  }

  /** `issues.some(...)` with the test above, walked from the last issue back. */
  predicate HasMarked(s: seq<Issue>)
  {
    |s| > 0 && (HasMarked(s[..|s| - 1]) || Marked(s[|s| - 1]))
  }

  /** `HasMarked` is "some recorded issue is marked". */
  lemma {:induction false} HasMarkedMeans(s: seq<Issue>)
    ensures HasMarked(s) <==> exists k | 0 <= k < |s| :: Marked(s[k])
  {
    if |s| > 0 {
      var p := s[..|s| - 1];
      HasMarkedMeans(p);
      if exists k | 0 <= k < |p| :: Marked(p[k]) {
        var k :| 0 <= k < |p| && Marked(p[k]);
        assert s[k] == p[k];
      }
      if exists k | 0 <= k < |s| - 1 :: Marked(s[k]) {
        var k :| 0 <= k < |s| - 1 && Marked(s[k]);
        assert p[k] == s[k];
      }
    }
  }

  // ---------------------------------------------------------------------
  // What a list of issues adds up to

  /**
   * The score, the per-kind flags and the number of hidden-rows issues that a
   * list of recorded issues accounts for.
   */
  datatype Tally = Tally(score: nat, macros: bool, dde: bool, commands: bool, objects: bool,
                         hiddenSheets: bool, hiddenRows: nat)

  function AddIssue(t: Tally, i: Issue): Tally
  {
    var k := Kind(i.cause);
    Tally(t.score + Weight(i.cause),
          t.macros || k == Macro,
          t.dde || k == DdeAttack,
          t.commands || k == CommandInjection,
          t.objects || k == EmbeddedObject,
          t.hiddenSheets || i.cause.HiddenSheet?,
          t.hiddenRows + if i.cause.HiddenRowsCols? then 1 else 0)
  }

  function TallyOf(s: seq<Issue>): Tally
  {
    if |s| == 0 then Tally(0, false, false, false, false, false, 0)
    else AddIssue(TallyOf(s[..|s| - 1]), s[|s| - 1])
  }

  /** Some recorded issue is of kind `k`. */
  predicate HasKind(s: seq<Issue>, k: IssueType)
  {
    exists j | 0 <= j < |s| :: Kind(s[j].cause) == k
  }

  /** The sum of the issues' weights. */
  function SumWeights(s: seq<Issue>): nat
  {
    if |s| == 0 then 0 else SumWeights(s[..|s| - 1]) + Weight(s[|s| - 1].cause)
  }

  /** The tally means what it says: its score sums the weights and each flag is "some issue of that kind". */
  lemma {:induction false} TallyMeaning(s: seq<Issue>)
    ensures TallyOf(s).score == SumWeights(s)
    ensures TallyOf(s).macros <==> HasKind(s, Macro)
    ensures TallyOf(s).dde <==> HasKind(s, DdeAttack)
    ensures TallyOf(s).commands <==> HasKind(s, CommandInjection)
    ensures TallyOf(s).objects <==> HasKind(s, EmbeddedObject)
    ensures TallyOf(s).hiddenSheets <==> exists j | 0 <= j < |s| :: s[j].cause.HiddenSheet?
    ensures TallyOf(s).hiddenRows == 0 <==> forall j | 0 <= j < |s| :: !s[j].cause.HiddenRowsCols?
  {
    if |s| > 0 {
      var p := s[..|s| - 1];
      TallyMeaning(p);
      forall k: IssueType
        ensures HasKind(s, k) <==> HasKind(p, k) || Kind(s[|s| - 1].cause) == k
      {
        if HasKind(p, k) {
          var j :| 0 <= j < |p| && Kind(p[j].cause) == k;
          assert s[j] == p[j];
        }
        if HasKind(s, k) && Kind(s[|s| - 1].cause) != k {
          var j :| 0 <= j < |s| && Kind(s[j].cause) == k;
          assert p[j] == s[j];
        }
      }
      if exists j | 0 <= j < |p| :: p[j].cause.HiddenSheet? {
        var j :| 0 <= j < |p| && p[j].cause.HiddenSheet?;
        assert s[j] == p[j];
      }
      if exists j | 0 <= j < |s| - 1 :: s[j].cause.HiddenSheet? {
        var j :| 0 <= j < |s| - 1 && s[j].cause.HiddenSheet?;
        assert p[j] == s[j];
      }
      if exists j | 0 <= j < |p| :: p[j].cause.HiddenRowsCols? {
        var j :| 0 <= j < |p| && p[j].cause.HiddenRowsCols?;
        assert s[j] == p[j];
      }
      if exists j | 0 <= j < |s| - 1 :: s[j].cause.HiddenRowsCols? {
        var j :| 0 <= j < |s| - 1 && s[j].cause.HiddenRowsCols?;
        assert p[j] == s[j];
      }
    }
  }

  lemma AppendAssoc<T>(a: seq<T>, b: seq<T>, c: seq<T>)
    ensures a + (b + c) == a + b + c
  {
  }

  /** The number of hidden-rows issues in `s`. */
  function HiddenRowsCount(s: seq<Issue>): nat
  {
    if |s| == 0 then 0
    else HiddenRowsCount(s[..|s| - 1]) + if s[|s| - 1].cause.HiddenRowsCols? then 1 else 0
  }

  /** The tally's hidden-rows counter counts the hidden-rows issues. */
  lemma {:induction false} TallyCountsHiddenRows(s: seq<Issue>)
    ensures TallyOf(s).hiddenRows == HiddenRowsCount(s)
  {
    if |s| > 0 {
      TallyCountsHiddenRows(s[..|s| - 1]);
    }
  }

  /** Hidden-rows counts add up over concatenation. */
  lemma {:induction false} HiddenRowsAppend(a: seq<Issue>, b: seq<Issue>)
    ensures HiddenRowsCount(a + b) == HiddenRowsCount(a) + HiddenRowsCount(b)
  {
    if |b| > 0 {
      assert (a + b)[..|a + b| - 1] == a + b[..|b| - 1];
      HiddenRowsAppend(a, b[..|b| - 1]);
    } else {
      assert a + b == a;
    }
  }

  /** Every issue that reports hidden rows is one the hidden-row check sees. */
  lemma {:induction false} HiddenRowsAreMarked(s: seq<Issue>)
    requires HiddenRowsCount(s) > 0
    ensures HasMarked(s)
  {
    if !s[|s| - 1].cause.HiddenRowsCols? {
      HiddenRowsAreMarked(s[..|s| - 1]);
    }
  }

  /** The mark does not start inside the hidden-sheet description's fixed prefix. */
  lemma MarkNotInSheetPrefix(p: string, n: string)
    requires p == "숨겨진 시트 발견: "
    ensures forall j | 0 <= j < |p| :: !At(p + n, j, HIDDEN_ROWS_MARK)
  {
    forall j | 0 <= j < |p|
      ensures !At(p + n, j, HIDDEN_ROWS_MARK)
    {
      var d := p + n;
      if j == 0 {
        assert d[4] == p[4] != HIDDEN_ROWS_MARK[4];
      } else if j + |HIDDEN_ROWS_MARK| <= |d| {
        assert d[j..j + |HIDDEN_ROWS_MARK|][0] == p[j] != HIDDEN_ROWS_MARK[0];
      }
    }
  }

  /** The cause-level test agrees with the description-text test the source performs. */
  lemma MarkedMeansText(i: Issue)
    ensures Marked(i) <==> MarkedByText(i)
  {
    var d := Description(i.cause);
    match i.cause {
      case HiddenRowsCols =>
        assert At(d, 0, HIDDEN_ROWS_MARK);
      case HiddenSheet(n) =>
        var p := "숨겨진 시트 발견: ";
        assert d == p + n + "";
        if Contains(n, HIDDEN_ROWS_MARK) {
          ContainsInMiddle(p, n, "", HIDDEN_ROWS_MARK);
        }
        if Contains(d, HIDDEN_ROWS_MARK) {
          var j :| 0 <= j <= |d| && At(d, j, HIDDEN_ROWS_MARK);
          MarkNotInSheetPrefix(p, n);
          assert n[j - |p|..j - |p| + |HIDDEN_ROWS_MARK|] == d[j..j + |HIDDEN_ROWS_MARK|];
          assert At(n, j - |p|, HIDDEN_ROWS_MARK);
        }
      case _ =>
    }
  }

  // ---------------------------------------------------------------------
  // Pattern tables. Every pattern of the source is case-insensitive and is
  // matched here against the ASCII-lower-cased text.

  /**
   * The regular-expression shapes of the tables:
   * `Substr(s)` is /s/, `Prefix(s)` is /^s/, `Chain([a, b, ...])` is /a.*b.*.../,
   * `SpaceThen(a, b)` is /a\s+b/, `WordEnd(s)` is /s\b/ and `DdeReference` is
   * /^[a-z]+\|.*![a-z0-9]+$/.
   */
  datatype Pattern =
    | Substr(s: string)
    | Prefix(s: string)
    | Chain(parts: seq<string>)
    | SpaceThen(a: string, b: string)
    | WordEnd(s: string)
    | DdeReference

  /** `parts` occur in order from `pos` on, with no line break in the gaps. */
  predicate ChainFrom(t: string, pos: int, parts: seq<string>)
    decreases |parts|
  {
    |parts| == 0
    || (exists j | pos <= j <= |t| ::
          0 <= pos && At(t, j, parts[0]) && NoLineBreak(t[pos..j])
          && ChainFrom(t, j + |parts[0]|, parts[1..]))
  }

  predicate AllAlnum(s: string) { forall i | 0 <= i < |s| :: IsLetter(s[i]) || IsDigit(s[i]) }

  predicate Matches(p: Pattern, t: string)
  {
    match p
    case Substr(s) => Contains(t, s)
    case Prefix(s) => StartsWith(t, s)
    case Chain(parts) =>
      |parts| > 0 && exists i | 0 <= i <= |t| :: At(t, i, parts[0]) && ChainFrom(t, i + |parts[0]|, parts[1..])
    case SpaceThen(a, b) =>
      exists i, j | 0 <= i && i + |a| < j <= |t| ::
        At(t, i, a) && (forall k | i + |a| <= k < j :: IsSpace(t[k])) && At(t, j, b)
    case WordEnd(s) =>
      exists i | 0 <= i <= |t| :: At(t, i, s) && (i + |s| == |t| || !IsWordChar(t[i + |s|]))
    case DdeReference =>
      exists k, m | 1 <= k < m < |t| - 1 ::
        AllLetters(t[..k]) && t[k] == '|' && NoLineBreak(t[k + 1..m]) && t[m] == '!' && AllAlnum(t[m + 1..])
  }

  /** Some pattern of the table matches. */
  predicate AnyMatches(table: seq<Pattern>, t: string)
  {
    |table| > 0 && (Matches(table[0], t) || AnyMatches(table[1..], t))
  }

  /** `AnyMatches` is "some entry matches". */
  lemma {:induction false} AnyMatchesMeans(table: seq<Pattern>, t: string)
    ensures AnyMatches(table, t) <==> exists k | 0 <= k < |table| :: Matches(table[k], t)
  {
    if |table| > 0 {
      AnyMatchesMeans(table[1..], t);
      if exists k | 0 <= k < |table| :: Matches(table[k], t) {
        var k :| 0 <= k < |table| && Matches(table[k], t);
        if k > 0 {
          assert table[1..][k - 1] == table[k];
        }
      }
    }
  }

  const DDE_PATTERNS: seq<Pattern> := [
    Substr("=dde("), Substr("=ddeauto("), Substr("=cmd|"), Substr("=msexcel|"), Substr("=excel|"),
    Chain(["@sum(", "cmd"]), Chain(["=", "|'", "!"]),
    Prefix("cmd|"), Prefix("msexcel|"), Prefix("excel|"), Prefix("winword|"), Prefix("powershell|"),
    DdeReference,
    Chain(["cmd", "/c"]), Chain(["powershell", "exe"]), Chain(["system32", "exe"]),
    Substr("calc.exe"), Substr("notepad.exe"), Substr("cmd.exe"),
    Chain(["ddeauto", "cmd"]), Chain(["ddeauto", "powershell"]), Chain(["ddeauto", "system32"])
  ]

  const COMMAND_PATTERNS: seq<Pattern> := [
    SpaceThen("/c", ""), SpaceThen("/k", ""), SpaceThen("-c", ""), SpaceThen("-e", ""),
    Substr("\\system32\\"), Substr("\\windows\\"),
    WordEnd(".exe"), WordEnd(".bat"), WordEnd(".cmd"), WordEnd(".ps1"),
    WordEnd("calc"), WordEnd("notepad"),
    Substr("taskkill"), SpaceThen("net", "user")
  ]

  /** Looked up in the upper-cased text; the first one contained wins. */
  const DANGEROUS_FUNCTIONS: seq<string> := [
    "HYPERLINK", "WEBSERVICE", "FILTERXML", "RTD", "CUBEVALUE", "CUBEMEMBER",
    "CUBERANKEDMEMBER", "CUBESET", "CUBESETCOUNT", "CUBEKPIMEMBER",
    "CALL", "REGISTER", "EVALUATE", "EXEC", "SHELL"
  ]

  /** Looked up in the lower-cased text; the first one contained wins. */
  const SUSPICIOUS_PROTOCOLS: seq<string> := [
    "file://", "ftp://", "http://", "https://", "ldap://", "mailto:", "news:", "nntp:",
    "telnet:", "gopher:", "wais:", "smb://", "unc://", "\\\\"
  ]

  /** Defined names that trigger on open or close, upper-cased as they are compared. */
  const AUTO_RUN_NAMES: seq<string> := [
    "AUTO_OPEN", "AUTO_CLOSE", "AUTO_EXEC", "AUTOOPEN", "AUTOCLOSE", "AUTOEXEC",
    "WORKBOOK_OPEN", "WORKBOOK_CLOSE", "WORKBOOK_ACTIVATE", "WORKBOOK_DEACTIVATE"
  ]

  /** Index of the first entry of `table` that `s` contains. */
  function FirstContained(s: string, table: seq<string>): (r: Option<nat>)
    ensures r.Some? ==> r.value < |table|
  {
    if |table| == 0 then None
    else if Contains(s, table[0]) then Some(0)
    else match FirstContained(s, table[1..])
      case None => None
      case Some(k) => Some(k + 1)
  }

  /** The first entry contained is the one `FirstContained` reports. */
  lemma {:induction false} FirstContainedAt(s: string, table: seq<string>, k: nat)
    requires k < |table| && Contains(s, table[k])
    requires forall j | 0 <= j < k :: !Contains(s, table[j])
    ensures FirstContained(s, table) == Some(k)
  {
    if k > 0 {
      FirstContainedAt(s, table[1..], k - 1);
    }
  }

  /** No entry contained: `FirstContained` reports none. */
  lemma {:induction false} FirstContainedNone(s: string, table: seq<string>)
    requires forall j | 0 <= j < |table| :: !Contains(s, table[j])
    ensures FirstContained(s, table) == None
  {
    if |table| > 0 {
      FirstContainedNone(s, table[1..]);
    }
  }

  /** The reported entry is contained and no earlier one is; none reported means none contained. */
  lemma {:induction false} FirstContainedMeans(s: string, table: seq<string>)
    ensures FirstContained(s, table).Some? ==>
              var k := FirstContained(s, table).value;
              Contains(s, table[k]) && forall j | 0 <= j < k :: !Contains(s, table[j])
    ensures FirstContained(s, table).None? ==> forall j | 0 <= j < |table| :: !Contains(s, table[j])
  {
    if |table| > 0 && !Contains(s, table[0]) {
      FirstContainedMeans(s, table[1..]);
      forall j | 1 <= j < |table|
        ensures table[j] == table[1..][j - 1]
      {
      }
    }
  }

  // ---------------------------------------------------------------------
  // What one candidate string, one cell, one row, one sheet contribute

  /** The text forms of a cell that are checked, in the order the source collects them. */
  function CandidatesOf(c: Cell): seq<string>
  {
    Collect(Collect(Collect(Collect([], c.formula), c.value), c.text), c.html)
  }

  /** A form is collected when it is present (non-empty). */
  function Collect(ts: seq<string>, t: string): seq<string>
  {
    if t != "" then ts + [t] else ts
  }

  /** How many of a cell's forms count as formulas: `f`, and a string value starting with '='. */
  function CellFormulas(c: Cell): nat
  {
    (if c.formula != "" then 1 else 0) + (if c.value != "" && StartsWith(c.value, "=") then 1 else 0)
  }

  /** A candidate that looks like an external reference. */
  predicate LinkLike(t: string)
  {
    Contains(t, "[") || Contains(t, "!") || Contains(t, "://")
  }

  function DdeIssues(t: string, loc: Location): seq<Issue>
  {
    if AnyMatches(DDE_PATTERNS, ToLower(t)) then [Issue(DdePattern, loc, Some(Take(t, 100)))] else []
  }

  function CommandIssues(t: string, loc: Location): seq<Issue>
  {
    if AnyMatches(COMMAND_PATTERNS, ToLower(t)) then [Issue(CommandPattern, loc, Some(Take(t, 100)))] else []
  }

  function FunctionIssues(t: string, loc: Location): seq<Issue>
  {
    match FirstContained(ToUpper(t), DANGEROUS_FUNCTIONS)
    case None => []
    case Some(k) => [Issue(DangerousFunction(DANGEROUS_FUNCTIONS[k]), loc, Some(Take(t, 100)))]
  }

  function ProtocolIssues(t: string, loc: Location): seq<Issue>
  {
    if !LinkLike(t) then []
    else match FirstContained(ToLower(t), SUSPICIOUS_PROTOCOLS)
      case None => []
      case Some(k) => [Issue(SuspiciousProtocol(SUSPICIOUS_PROTOCOLS[k]), loc, Some(Take(t, 100)))]
  }

  /** The four checks a candidate string goes through, in the order the source runs them. */
  datatype Check = DdeCheck | CommandCheck | FunctionCheck | ProtocolCheck

  const CHECKS: seq<Check> := [DdeCheck, CommandCheck, FunctionCheck, ProtocolCheck]

  function CheckIssues(k: Check, t: string, loc: Location): seq<Issue>
  {
    match k
    case DdeCheck => DdeIssues(t, loc)
    case CommandCheck => CommandIssues(t, loc)
    case FunctionCheck => FunctionIssues(t, loc)
    case ProtocolCheck => ProtocolIssues(t, loc)
  }

  /** The issues of the checks `ks`, one after the other. */
  function ChecksIssues(ks: seq<Check>, t: string, loc: Location): seq<Issue>
  {
    if |ks| == 0 then [] else CheckIssues(ks[0], t, loc) + ChecksIssues(ks[1..], t, loc)
  }

  /** The issues one candidate string adds: at most one per table, in table order. */
  function CandidateIssues(t: string, loc: Location): seq<Issue>
  {
    if IsBlank(t) then [] else ChecksIssues(CHECKS, t, loc)
  }

  /** A non-blank candidate goes through the four tables in turn. */
  lemma {:induction false} CandidateIssuesInOrder(t: string, loc: Location)
    requires !IsBlank(t)
    ensures CandidateIssues(t, loc)
            == DdeIssues(t, loc) + CommandIssues(t, loc) + FunctionIssues(t, loc) + ProtocolIssues(t, loc)
  {
    hide DdeIssues, CommandIssues, FunctionIssues, ProtocolIssues;
    var d, c, f, p := DdeIssues(t, loc), CommandIssues(t, loc), FunctionIssues(t, loc), ProtocolIssues(t, loc);
    assert CHECKS[1..][1..][1..][1..] == [];
    assert ChecksIssues(CHECKS[1..][1..][1..], t, loc) == p + [];
    assert ChecksIssues(CHECKS[1..][1..], t, loc) == f + p;
    assert ChecksIssues(CHECKS[1..], t, loc) == c + (f + p);
    assert ChecksIssues(CHECKS, t, loc) == d + (c + (f + p));
    AppendAssoc(d, c, f + p);
    AppendAssoc(d + c, f, p);
  }

  function CandidatesIssues(ts: seq<string>, loc: Location): seq<Issue>
  {
    if |ts| == 0 then [] else CandidatesIssues(ts[..|ts| - 1], loc) + CandidateIssues(ts[|ts| - 1], loc)
  }

  function CandidatesLinks(ts: seq<string>): nat
  {
    if |ts| == 0 then 0 else CandidatesLinks(ts[..|ts| - 1]) + LinkCount(ts[|ts| - 1])
  }

  function LinkIssues(link: Option<string>, loc: Location): seq<Issue>
  {
    match link
    case None => []
    case Some(target) =>
      match FirstContained(ToLower(target), SUSPICIOUS_PROTOCOLS)
      case None => []
      case Some(k) => [Issue(HyperlinkProtocol(SUSPICIOUS_PROTOCOLS[k]), loc, Some(target))]
  }

  /** A cell's four text forms in collection order, empty ones included. */
  function FormsOf(c: Cell): seq<string>
  {
    [c.formula, c.value, c.text, c.html]
  }

  /**
   * The issues a cell adds: each of its four text forms in collection order
   * (an empty form adds nothing, being blank), then its hyperlink.
   */
  function CellIssues(c: Cell, loc: Location): seq<Issue>
  {
    CandidatesIssues(FormsOf(c), loc) + LinkIssues(c.link, loc)
  }

  /** 1 for a link-like candidate. */
  function LinkCount(t: string): nat
  {
    if LinkLike(t) then 1 else 0
  }

  /** External-link count of a cell: its link-like text forms plus its hyperlink. */
  function CellLinks(c: Cell): nat
  {
    CandidatesLinks(FormsOf(c)) + (if c.link.Some? then 1 else 0)
  }

  function SlotIssues(name: string, row: nat, col: nat, slot: Option<Cell>): seq<Issue>
  {
    match slot
    case None => []
    case Some(c) => CellIssues(c, CellLoc(name, row, col))
  }

  function SlotFormulas(slot: Option<Cell>): nat
  {
    match slot
    case None => 0
    case Some(c) => CellFormulas(c)
  }

  function SlotLinks(slot: Option<Cell>): nat
  {
    match slot
    case None => 0
    case Some(c) => CellLinks(c)
  }

  /** The issues of the first `n` columns of a row, left to right. */
  function CellsIssues(name: string, row: nat, cells: seq<Option<Cell>>, n: nat): seq<Issue>
    requires n <= |cells|
  {
    if n == 0 then [] else CellsIssues(name, row, cells, n - 1) + SlotIssues(name, row, n - 1, cells[n - 1])
  }

  function CellsFormulas(cells: seq<Option<Cell>>, n: nat): nat
    requires n <= |cells|
  {
    if n == 0 then 0 else CellsFormulas(cells, n - 1) + SlotFormulas(cells[n - 1])
  }

  function CellsLinks(cells: seq<Option<Cell>>, n: nat): nat
    requires n <= |cells|
  {
    if n == 0 then 0 else CellsLinks(cells, n - 1) + SlotLinks(cells[n - 1])
  }

  /** Column `col` is flagged hidden (a column without an entry is shown). */
  predicate ColHidden(hiddenCols: seq<bool>, col: nat)
  {
    col < |hiddenCols| && hiddenCols[col]
  }

  /** One of the first `n` columns is hidden. */
  predicate ColsHidden(hiddenCols: seq<bool>, n: nat)
  {
    n > 0 && (ColsHidden(hiddenCols, n - 1) || ColHidden(hiddenCols, n - 1))
  }

  function HiddenRowIssue(sheet: string): Issue
  {
    Issue(HiddenRowsCols, SheetLoc(sheet), None)
  }

  /** The hidden-row issue, for a hidden row, unless one is already among `acc`. */
  function HiddenRowIssues(acc: seq<Issue>, name: string, row: Row): seq<Issue>
  {
    if row.hidden && !HasMarked(acc) then [HiddenRowIssue(name)] else []
  }

  /** What a row adds to the issues `acc` recorded before it. */
  function RowIssues(acc: seq<Issue>, name: string, r: nat, row: Row): seq<Issue>
  {
    HiddenRowIssues(acc, name, row) + CellsIssues(name, r, row.cells, |row.cells|)
  }

  /** Visiting the row meets a hidden row or a hidden column. */
  predicate RowMeetsHidden(row: Row, hiddenCols: seq<bool>)
  {
    row.hidden || ColsHidden(hiddenCols, |row.cells|)
  }

  /** What the first `n` rows add to the issues `acc` recorded before them. */
  function RowsIssues(acc: seq<Issue>, name: string, rows: seq<Row>, n: nat): seq<Issue>
    requires n <= |rows|
  {
    if n == 0 then []
    else
      var before := RowsIssues(acc, name, rows, n - 1);
      before + RowIssues(acc + before, name, n - 1, rows[n - 1])
  }

  function RowsFormulas(rows: seq<Row>, n: nat): nat
    requires n <= |rows|
  {
    if n == 0 then 0 else RowsFormulas(rows, n - 1) + CellsFormulas(rows[n - 1].cells, |rows[n - 1].cells|)
  }

  function RowsLinks(rows: seq<Row>, n: nat): nat
    requires n <= |rows|
  {
    if n == 0 then 0 else RowsLinks(rows, n - 1) + CellsLinks(rows[n - 1].cells, |rows[n - 1].cells|)
  }

  predicate RowsMeetHidden(rows: seq<Row>, hiddenCols: seq<bool>, n: nat)
    requires n <= |rows|
  {
    n > 0 && (RowsMeetHidden(rows, hiddenCols, n - 1) || RowMeetsHidden(rows[n - 1], hiddenCols))
  }

  function HiddenSheetIssues(s: Sheet): seq<Issue>
  {
    if s.hidden then [Issue(HiddenSheet(s.name), SheetLoc(s.name), None)] else []
  }

  /** What a sheet adds to the issues `acc` recorded before it; a missing sheet adds nothing. */
  function SheetIssues(acc: seq<Issue>, s: Sheet): seq<Issue>
  {
    if !s.present then []
    else HiddenSheetIssues(s) + RowsIssues(acc + HiddenSheetIssues(s), s.name, s.rows, |s.rows|)
  }

  function SheetFormulas(s: Sheet): nat
  {
    if s.present then RowsFormulas(s.rows, |s.rows|) else 0
  }

  function SheetLinks(s: Sheet): nat
  {
    if s.present then RowsLinks(s.rows, |s.rows|) else 0
  }

  predicate SheetMeetsHidden(s: Sheet)
  {
    s.present && RowsMeetHidden(s.rows, s.hiddenCols, |s.rows|)
  }

  /** What the first `n` sheets add to the issues `acc` recorded before them. */
  function SheetsIssues(acc: seq<Issue>, sheets: seq<Sheet>, n: nat): seq<Issue>
    requires n <= |sheets|
  {
    if n == 0 then []
    else
      var before := SheetsIssues(acc, sheets, n - 1);
      before + SheetIssues(acc + before, sheets[n - 1])
  }

  function SheetsFormulas(sheets: seq<Sheet>, n: nat): nat
    requires n <= |sheets|
  {
    if n == 0 then 0 else SheetsFormulas(sheets, n - 1) + SheetFormulas(sheets[n - 1])
  }

  function SheetsLinks(sheets: seq<Sheet>, n: nat): nat
    requires n <= |sheets|
  {
    if n == 0 then 0 else SheetsLinks(sheets, n - 1) + SheetLinks(sheets[n - 1])
  }

  predicate SheetsMeetHidden(sheets: seq<Sheet>, n: nat)
    requires n <= |sheets|
  {
    n > 0 && (SheetsMeetHidden(sheets, n - 1) || SheetMeetsHidden(sheets[n - 1]))
  }

  predicate IsAutoRunName(name: string)
  {
    ContainsAny(ToUpper(name), AUTO_RUN_NAMES)
  }

  function NameIssues(name: string): seq<Issue>
  {
    if IsAutoRunName(name) then [Issue(AutoRunName(name), Nowhere, None)] else []
  }

  /** The issues of the first `n` defined names. */
  function NamesIssues(names: seq<string>, n: nat): seq<Issue>
    requires n <= |names|
  {
    if n == 0 then [] else NamesIssues(names, n - 1) + NameIssues(names[n - 1])
  }

  function MacroIssues(wb: Workbook): seq<Issue>
  {
    if wb.hasMacros then [Issue(VbaMacro, Nowhere, None)] else []
  }

  function ObjectIssues(wb: Workbook): seq<Issue>
  {
    if wb.hasObjects then [Issue(EmbeddedObjects, Nowhere, None)] else []
  }

  /** Every issue the scan of a parsed workbook records, in the order it records them. */
  function WorkbookIssues(wb: Workbook): seq<Issue>
  {
    var m := MacroIssues(wb);
    m + SheetsIssues(m, wb.sheets, |wb.sheets|) + ObjectIssues(wb) + NamesIssues(wb.definedNames, |wb.definedNames|)
  }

  /** Formulas counted over the whole workbook. */
  function WorkbookFormulas(wb: Workbook): nat
  {
    SheetsFormulas(wb.sheets, |wb.sheets|)
  }

  /** External links counted over the whole workbook. */
  function WorkbookLinks(wb: Workbook): nat
  {
    SheetsLinks(wb.sheets, |wb.sheets|)
  }

  /** Some present sheet has a hidden row or a hidden column within its range. */
  predicate WorkbookMeetsHidden(wb: Workbook)
  {
    SheetsMeetHidden(wb.sheets, |wb.sheets|)
  }

  // ---------------------------------------------------------------------
  // The result and its invariant

  datatype ScanResult = ScanResult(
    hasVBAMacros: bool,
    hasExternalLinks: bool,
    hasHiddenSheets: bool,
    hasHiddenRowsCols: bool,
    hasDDEFormulas: bool,
    hasEmbeddedObjects: bool,
    hasCommandInjection: bool,
    securityIssues: seq<Issue>,
    sheetCount: nat,
    formulaCount: nat,
    externalLinkCount: nat,
    riskScore: nat,
    riskLevel: Severity)

  /**
   * What holds of the result at every step of the scan: the score is the sum of
   * the issues' weights, each flag says whether an issue of its kind was
   * recorded, at most one issue reports hidden rows, and the link flag says
   * whether a link was counted.
   */
  predicate Consistent(r: ScanResult)
  {
    && TallyOf(r.securityIssues)
       == Tally(r.riskScore, r.hasVBAMacros, r.hasDDEFormulas, r.hasCommandInjection,
                r.hasEmbeddedObjects, r.hasHiddenSheets, TallyOf(r.securityIssues).hiddenRows)
    && TallyOf(r.securityIssues).hiddenRows <= 1
    && r.hasExternalLinks == (r.externalLinkCount > 0)
  }

  /** The score thresholds; there is no cap. */
  function LevelFor(score: int): (l: Severity)
    ensures l == Critical <==> score >= 15
    ensures l == High <==> 10 <= score < 15
    ensures l == Medium <==> 5 <= score < 10
    ensures l == Low <==> score < 5
  {
    if score >= 15 then Critical
    else if score >= 10 then High
    else if score >= 5 then Medium
    else Low
  }

  /** The result object as the scan first builds it. */
  function InitialResult(sheetCount: nat): ScanResult
  {
    ScanResult(false, false, false, false, false, false, false, [], sheetCount, 0, 0, 0, Low)
  }

  /** The fixed result returned when the parser throws. */
  function UnreadableResult(): ScanResult
  {
    ScanResult(false, false, false, false, false, false, false,
               [Issue(Unparseable, Nowhere, None)], 0, 0, 0, 5, Medium)
  }

  /** The unreadable-file result agrees with its one issue: score 5, medium. */
  lemma UnreadableConsistent()
    ensures Consistent(UnreadableResult())
    ensures UnreadableResult().riskLevel == LevelFor(UnreadableResult().riskScore)
  {
    assert [Issue(Unparseable, Nowhere, None)][..0] == [];
  }

  // ---------------------------------------------------------------------
  // How the scan changes the result

  /**
   * Recording an issue, as every check does it: append the issue, add its
   * weight to the score and raise the flag of its kind, if it has one.
   */
  function Record(r: ScanResult, i: Issue): ScanResult
  {
    var k := Kind(i.cause);
    r.(securityIssues := r.securityIssues + [i],
       riskScore := r.riskScore + Weight(i.cause),
       hasVBAMacros := r.hasVBAMacros || k == Macro,
       hasDDEFormulas := r.hasDDEFormulas || k == DdeAttack,
       hasCommandInjection := r.hasCommandInjection || k == CommandInjection,
       hasEmbeddedObjects := r.hasEmbeddedObjects || k == EmbeddedObject,
       hasHiddenSheets := r.hasHiddenSheets || i.cause.HiddenSheet?)
  }

  /** Counting an external link: raise the flag and add one to the count. */
  function CountLink(r: ScanResult): ScanResult
  {
    r.(hasExternalLinks := true, externalLinkCount := r.externalLinkCount + 1)
  }

  /** Adding a cell's formulas to the count. */
  function AddFormulas(r: ScanResult, n: nat): ScanResult
  {
    r.(formulaCount := r.formulaCount + n)
  }

  /** Noting a hidden row or column. */
  function SeeHidden(r: ScanResult): ScanResult
  {
    r.(hasHiddenRowsCols := true)
  }

  /** The tally of two lists one after the other. */
  function Combine(a: Tally, b: Tally): Tally
  {
    Tally(a.score + b.score, a.macros || b.macros, a.dde || b.dde, a.commands || b.commands,
          a.objects || b.objects, a.hiddenSheets || b.hiddenSheets, a.hiddenRows + b.hiddenRows)
  }

  /** Adding one issue after a combination is adding it to the second part. */
  lemma CombineAdd(x: Tally, t: Tally, i: Issue)
    ensures Combine(x, AddIssue(t, i)) == AddIssue(Combine(x, t), i)
  {
  }

  lemma {:induction false} TallyAppend(a: seq<Issue>, b: seq<Issue>)
    ensures TallyOf(a + b) == Combine(TallyOf(a), TallyOf(b))
  {
    hide Weight, Kind, AddIssue;
    if |b| == 0 {
      assert a + b == a;
    } else {
      var init, last := b[..|b| - 1], b[|b| - 1];
      TallyAppend(a, init);
      assert (a + b)[..|a + b| - 1] == a + init;
      assert (a + b)[|a + b| - 1] == last;
      assert TallyOf(a + b) == AddIssue(TallyOf(a + init), last);
      assert TallyOf(b) == AddIssue(TallyOf(init), last);
      CombineAdd(TallyOf(a), TallyOf(init), last);
    }
  }

  /**
   * `r` is `r0` after a stretch of the scan that records `issues` in order,
   * counts `formulas` formulas and `links` external links, and meets a hidden
   * row or column when `hidden`: every field of `r` is fixed by these. Every
   * step of the scan is of this form.
   */
  predicate Advanced(r0: ScanResult, r: ScanResult, issues: seq<Issue>, formulas: nat, links: nat, hidden: bool)
  {
    var t := TallyOf(issues);
    && r.securityIssues == r0.securityIssues + issues
    && r.riskScore == r0.riskScore + t.score
    && r.hasVBAMacros == (r0.hasVBAMacros || t.macros)
    && r.hasDDEFormulas == (r0.hasDDEFormulas || t.dde)
    && r.hasCommandInjection == (r0.hasCommandInjection || t.commands)
    && r.hasEmbeddedObjects == (r0.hasEmbeddedObjects || t.objects)
    && r.hasHiddenSheets == (r0.hasHiddenSheets || t.hiddenSheets)
    && r.formulaCount == r0.formulaCount + formulas
    && r.externalLinkCount == r0.externalLinkCount + links
    && r.hasExternalLinks == (r0.hasExternalLinks || links > 0)
    && r.hasHiddenRowsCols == (r0.hasHiddenRowsCols || hidden)
    && r.sheetCount == r0.sheetCount
    && r.riskLevel == r0.riskLevel
  }

  /** A stretch that does nothing. */
  lemma AdvancedNothing(r: ScanResult)
    ensures Advanced(r, r, [], 0, 0, false)
  {
    assert r.securityIssues + [] == r.securityIssues;
  }

  /** Recording one issue is a stretch of one issue. */
  lemma RecordAdvances(r: ScanResult, i: Issue)
    ensures Advanced(r, Record(r, i), [i], 0, 0, false)
  {
    assert [i][..0] == [];
  }

  /** Counting a link is a stretch without issues. */
  lemma CountLinkAdvances(r: ScanResult)
    ensures Advanced(r, CountLink(r), [], 0, 1, false)
  {
    assert r.securityIssues + [] == r.securityIssues;
  }

  /** Adding formulas is a stretch without issues. */
  lemma AddFormulasAdvances(r: ScanResult, n: nat)
    ensures Advanced(r, AddFormulas(r, n), [], n, 0, false)
  {
    assert r.securityIssues + [] == r.securityIssues;
  }

  /** Noting a hidden row or column is a stretch without issues. */
  lemma SeeHiddenAdvances(r: ScanResult)
    ensures Advanced(r, SeeHidden(r), [], 0, 0, true)
  {
    assert r.securityIssues + [] == r.securityIssues;
  }

  /** The issues recorded after a stretch. */
  lemma AdvancedIssues(r0: ScanResult, r: ScanResult, issues: seq<Issue>, formulas: nat, links: nat, hidden: bool)
    requires Advanced(r0, r, issues, formulas, links, hidden)
    ensures r.securityIssues == r0.securityIssues + issues
  {
  }

  /** Two stretches one after the other are one stretch. */
  lemma AdvancedThen(r0: ScanResult, r1: ScanResult, r2: ScanResult,
                     i1: seq<Issue>, f1: nat, l1: nat, h1: bool,
                     i2: seq<Issue>, f2: nat, l2: nat, h2: bool)
    requires Advanced(r0, r1, i1, f1, l1, h1)
    requires Advanced(r1, r2, i2, f2, l2, h2)
    ensures Advanced(r0, r2, i1 + i2, f1 + f2, l1 + l2, h1 || h2)
  {
    TallyAppend(i1, i2);
    AppendAssoc(r0.securityIssues, i1, i2);
  }

  /** A stretch keeps the invariant, provided it does not bring a second hidden-rows issue. */
  lemma AdvancedKeeps(r0: ScanResult, r: ScanResult, issues: seq<Issue>, formulas: nat, links: nat, hidden: bool)
    requires Consistent(r0)
    requires Advanced(r0, r, issues, formulas, links, hidden)
    requires TallyOf(r0.securityIssues + issues).hiddenRows <= 1
    ensures Consistent(r)
  {
    TallyAppend(r0.securityIssues, issues);
  }

  // ---------------------------------------------------------------------
  // At most one hidden-rows issue

  /** A list that already holds a marked issue still holds one after more are appended. */
  lemma {:induction false} HasMarkedGrows(a: seq<Issue>, b: seq<Issue>)
    requires HasMarked(a)
    ensures HasMarked(a + b)
  {
    if |b| > 0 {
      assert (a + b)[..|a + b| - 1] == a + b[..|b| - 1];
      HasMarkedGrows(a, b[..|b| - 1]);
    } else {
      assert a + b == a;
    }
  }

  /** The count of a single issue. */
  lemma CountOne(i: Issue)
    ensures HiddenRowsCount([i]) == if i.cause.HiddenRowsCols? then 1 else 0
  {
    assert [i][..0] == [];
  }

  /** None of the four checks reports hidden rows. */
  lemma CheckNoRows(k: Check, t: string, loc: Location)
    ensures HiddenRowsCount(CheckIssues(k, t, loc)) == 0
  {
    var s := CheckIssues(k, t, loc);
    if |s| == 1 { CountOne(s[0]); }
  }

  lemma {:induction false} ChecksNoRows(ks: seq<Check>, t: string, loc: Location)
    ensures HiddenRowsCount(ChecksIssues(ks, t, loc)) == 0
  {
    if |ks| > 0 {
      CheckNoRows(ks[0], t, loc);
      ChecksNoRows(ks[1..], t, loc);
      HiddenRowsAppend(CheckIssues(ks[0], t, loc), ChecksIssues(ks[1..], t, loc));
    }
  }

  lemma {:induction false} CandidatesNoRows(ts: seq<string>, loc: Location)
    ensures HiddenRowsCount(CandidatesIssues(ts, loc)) == 0
  {
    if |ts| > 0 {
      CandidatesNoRows(ts[..|ts| - 1], loc);
      if !IsBlank(ts[|ts| - 1]) { ChecksNoRows(CHECKS, ts[|ts| - 1], loc); }
      HiddenRowsAppend(CandidatesIssues(ts[..|ts| - 1], loc), CandidateIssues(ts[|ts| - 1], loc));
    }
  }

  /** No cell reports hidden rows. */
  lemma CellNoRows(c: Cell, loc: Location)
    ensures HiddenRowsCount(CellIssues(c, loc)) == 0
  {
    CandidatesNoRows(FormsOf(c), loc);
    var l := LinkIssues(c.link, loc);
    if |l| == 1 { CountOne(l[0]); }
    HiddenRowsAppend(CandidatesIssues(FormsOf(c), loc), l);
  }

  /** A slot of a row reports no hidden rows. */
  lemma SlotNoRows(name: string, row: nat, col: nat, slot: Option<Cell>)
    ensures HiddenRowsCount(SlotIssues(name, row, col, slot)) == 0
  {
    if slot.Some? { CellNoRows(slot.value, CellLoc(name, row, col)); }
  }

  lemma {:induction false} CellsNoRows(name: string, row: nat, cells: seq<Option<Cell>>, n: nat)
    requires n <= |cells|
    ensures HiddenRowsCount(CellsIssues(name, row, cells, n)) == 0
  {
    hide SlotIssues;
    if n > 0 {
      CellsNoRows(name, row, cells, n - 1);
      SlotNoRows(name, row, n - 1, cells[n - 1]);
      HiddenRowsAppend(CellsIssues(name, row, cells, n - 1), SlotIssues(name, row, n - 1, cells[n - 1]));
    }
  }

  /** `s`, added after `acc`, holds at most one hidden-rows issue, and none when `acc` already has one. */
  predicate AtMostOneAfter(acc: seq<Issue>, s: seq<Issue>)
  {
    HiddenRowsCount(s) <= if HasMarked(acc) then 0 else 1
  }

  /** Two stretches that each keep the rule keep it together. */
  lemma AtMostOneThen(acc: seq<Issue>, s1: seq<Issue>, s2: seq<Issue>)
    requires AtMostOneAfter(acc, s1) && AtMostOneAfter(acc + s1, s2)
    ensures AtMostOneAfter(acc, s1 + s2)
  {
    HiddenRowsAppend(s1, s2);
    if HasMarked(acc) {
      HasMarkedGrows(acc, s1);
    }
    if HiddenRowsCount(s1) > 0 {
      HiddenRowsAppend(acc, s1);
      HiddenRowsAreMarked(acc + s1);
    }
  }

  /** A row reports hidden rows only when nothing before it has. */
  lemma RowAtMostOne(acc: seq<Issue>, name: string, r: nat, row: Row)
    ensures AtMostOneAfter(acc, RowIssues(acc, name, r, row))
  {
    var h := HiddenRowIssues(acc, name, row);
    CellsNoRows(name, r, row.cells, |row.cells|);
    if |h| == 1 { CountOne(h[0]); }
    HiddenRowsAppend(h, CellsIssues(name, r, row.cells, |row.cells|));
  }

  /**
   * The rows of a sheet add at most one hidden-rows issue, and none when one is
   * already among the issues recorded before them.
   */
  lemma {:induction false} RowsAtMostOne(acc: seq<Issue>, name: string, rows: seq<Row>, n: nat)
    requires n <= |rows|
    ensures AtMostOneAfter(acc, RowsIssues(acc, name, rows, n))
  {
    hide RowIssues;
    if n > 0 {
      var before := RowsIssues(acc, name, rows, n - 1);
      RowsAtMostOne(acc, name, rows, n - 1);
      RowAtMostOne(acc + before, name, n - 1, rows[n - 1]);
      AtMostOneThen(acc, before, RowIssues(acc + before, name, n - 1, rows[n - 1]));
    }
  }

  lemma SheetAtMostOne(acc: seq<Issue>, s: Sheet)
    ensures AtMostOneAfter(acc, SheetIssues(acc, s))
  {
    if s.present {
      var hs := HiddenSheetIssues(s);
      if |hs| == 1 { CountOne(hs[0]); }
      RowsAtMostOne(acc + hs, s.name, s.rows, |s.rows|);
      AtMostOneThen(acc, hs, RowsIssues(acc + hs, s.name, s.rows, |s.rows|));
    }
  }

  lemma {:induction false} SheetsAtMostOne(acc: seq<Issue>, sheets: seq<Sheet>, n: nat)
    requires n <= |sheets|
    ensures AtMostOneAfter(acc, SheetsIssues(acc, sheets, n))
  {
    hide SheetIssues;
    if n > 0 {
      var before := SheetsIssues(acc, sheets, n - 1);
      SheetsAtMostOne(acc, sheets, n - 1);
      SheetAtMostOne(acc + before, sheets[n - 1]);
      AtMostOneThen(acc, before, SheetIssues(acc + before, sheets[n - 1]));
    }
  }

  /** A defined name never reports hidden rows. */
  lemma NameNoRows(name: string)
    ensures HiddenRowsCount(NameIssues(name)) == 0
  {
    var k := NameIssues(name);
    if |k| == 1 { CountOne(k[0]); }
  }

  lemma {:induction false} NamesNoRows(names: seq<string>, n: nat)
    requires n <= |names|
    ensures HiddenRowsCount(NamesIssues(names, n)) == 0
  {
    hide NameIssues;
    if n > 0 {
      NamesNoRows(names, n - 1);
      NameNoRows(names[n - 1]);
      HiddenRowsAppend(NamesIssues(names, n - 1), NameIssues(names[n - 1]));
    }
  }

  /** A workbook's scan reports hidden rows at most once, however many rows are hidden. */
  lemma WorkbookAtMostOne(wb: Workbook)
    ensures TallyOf(WorkbookIssues(wb)).hiddenRows <= 1
  {
    var m, o := MacroIssues(wb), ObjectIssues(wb);
    var sh := SheetsIssues(m, wb.sheets, |wb.sheets|);
    var ns := NamesIssues(wb.definedNames, |wb.definedNames|);
    if |m| == 1 { CountOne(m[0]); }
    if |o| == 1 { CountOne(o[0]); }
    SheetsAtMostOne(m, wb.sheets, |wb.sheets|);
    NamesNoRows(wb.definedNames, |wb.definedNames|);
    HiddenRowsAppend(m, sh);
    HiddenRowsAppend(m + sh, o);
    HiddenRowsAppend(m + sh + o, ns);
    TallyCountsHiddenRows(WorkbookIssues(wb));
  }

  // ---------------------------------------------------------------------
  // The scan

  /** Walks a pattern table until one pattern matches (`for ... of` with `break`). */
  method MatchesAny(table: seq<Pattern>, lower: string) returns (found: bool)
    ensures found == AnyMatches(table, lower)
  {
    var i := 0;
    while i < |table|
      invariant 0 <= i <= |table|
      invariant AnyMatches(table, lower) == AnyMatches(table[i..], lower)
    {
      if Matches(table[i], lower) {
        return true;
      }
      assert table[i..][1..] == table[i + 1..];
      i := i + 1;
    }
    return false;
  }

  /** Walks a string table until one entry is contained (`for ... of` with `break`). */
  method FindFirst(s: string, table: seq<string>) returns (k: Option<nat>)
    ensures k == FirstContained(s, table)
  {
    var i := 0;
    while i < |table|
      invariant 0 <= i <= |table|
      invariant forall j | 0 <= j < i :: !Contains(s, table[j])
    {
      if Contains(s, table[i]) {
        FirstContainedAt(s, table, i);
        return Some(i);
      }
      i := i + 1;
    }
    FirstContainedNone(s, table);
    return None;
  }

  /** The DDE table: any matching pattern records one critical issue. */
  method CheckDde(r0: ScanResult, t: string, lower: string, loc: Location) returns (r: ScanResult)
    requires lower == ToLower(t)
    ensures Advanced(r0, r, DdeIssues(t, loc), 0, 0, false)
  {
    hide Advanced;
    r := r0;
    AdvancedNothing(r0);
    var dde := MatchesAny(DDE_PATTERNS, lower);
    if dde {
      var issue := Issue(DdePattern, loc, Some(Take(t, 100)));
      RecordAdvances(r, issue);
      r := Record(r, issue);
    }
  }

  /** The command table: any matching pattern records one critical issue. */
  method CheckCommand(r0: ScanResult, t: string, lower: string, loc: Location) returns (r: ScanResult)
    requires lower == ToLower(t)
    ensures Advanced(r0, r, CommandIssues(t, loc), 0, 0, false)
  {
    hide Advanced;
    r := r0;
    AdvancedNothing(r0);
    var command := MatchesAny(COMMAND_PATTERNS, lower);
    if command {
      var issue := Issue(CommandPattern, loc, Some(Take(t, 100)));
      RecordAdvances(r, issue);
      r := Record(r, issue);
    }
  }

  /** The function table: the first function named records one issue, critical for the four that run code. */
  method CheckFunctions(r0: ScanResult, t: string, upper: string, loc: Location) returns (r: ScanResult)
    requires upper == ToUpper(t)
    ensures Advanced(r0, r, FunctionIssues(t, loc), 0, 0, false)
  {
    hide Advanced;
    r := r0;
    AdvancedNothing(r0);
    var func := FindFirst(upper, DANGEROUS_FUNCTIONS);
    if func.Some? {
      var issue := Issue(DangerousFunction(DANGEROUS_FUNCTIONS[func.value]), loc, Some(Take(t, 100)));
      RecordAdvances(r, issue);
      r := Record(r, issue);
    }
  }

  /** For link-like text: counts the link, then the first protocol found records one issue. */
  method CheckProtocols(r0: ScanResult, t: string, lower: string, loc: Location) returns (r: ScanResult)
    requires lower == ToLower(t)
    ensures Advanced(r0, r, ProtocolIssues(t, loc), 0, LinkCount(t), false)
  {
    hide Advanced;
    r := r0;
    AdvancedNothing(r0);
    if LinkLike(t) {
      CountLinkAdvances(r0);
      r := CountLink(r0);
      var protocol := FindFirst(lower, SUSPICIOUS_PROTOCOLS);
      if protocol.Some? {
        var issue := Issue(SuspiciousProtocol(SUSPICIOUS_PROTOCOLS[protocol.value]), loc, Some(Take(t, 100)));
        RecordAdvances(r, issue);
        AdvancedThen(r0, r, Record(r, issue), [], 0, 1, false, [issue], 0, 0, false);
        assert [] + [issue] == [issue];
        r := Record(r, issue);
      }
    }
  }

  /** A cell's hyperlink: counts the link, then the first protocol of its target records one issue. */
  method CheckHyperlink(r0: ScanResult, link: Option<string>, loc: Location) returns (r: ScanResult)
    ensures Advanced(r0, r, LinkIssues(link, loc), 0, if link.Some? then 1 else 0, false)
  {
    hide Advanced;
    r := r0;
    AdvancedNothing(r0);
    if link.Some? {
      CountLinkAdvances(r0);
      r := CountLink(r0);
      var target := link.value;
      var protocol := FindFirst(ToLower(target), SUSPICIOUS_PROTOCOLS);
      if protocol.Some? {
        var issue := Issue(HyperlinkProtocol(SUSPICIOUS_PROTOCOLS[protocol.value]), loc, Some(target));
        RecordAdvances(r, issue);
        AdvancedThen(r0, r, Record(r, issue), [], 0, 1, false, [issue], 0, 0, false);
        assert [] + [issue] == [issue];
        r := Record(r, issue);
      }
    }
  }

  /** A blank string is never link-like. */
  lemma BlankNotLinkLike(t: string)
    requires IsBlank(t)
    ensures !LinkLike(t)
  {
    if Contains(t, "[") { ContainedChar(t, "[", '['); }
    if Contains(t, "!") { ContainedChar(t, "!", '!'); }
    if Contains(t, "://") { ContainedChar(t, "://", ':'); }
  }

  /** Checks one candidate string against the four tables. */
  method ScanCandidate(r0: ScanResult, t: string, loc: Location) returns (r: ScanResult)
    ensures Advanced(r0, r, CandidateIssues(t, loc), 0, LinkCount(t), false)
  {
    hide Advanced, DdeIssues, CommandIssues, FunctionIssues, ProtocolIssues, ChecksIssues;
    if IsBlank(t) {
      BlankNotLinkLike(t);
      AdvancedNothing(r0);
      return r0;
    }
    var lower := ToLower(t);
    var upper := ToUpper(t);
    var r1 := CheckDde(r0, t, lower, loc);
    var r2 := CheckCommand(r1, t, lower, loc);
    var r3 := CheckFunctions(r2, t, upper, loc);
    r := CheckProtocols(r3, t, lower, loc);
    ghost var d, c, f, p := DdeIssues(t, loc), CommandIssues(t, loc), FunctionIssues(t, loc), ProtocolIssues(t, loc);
    AdvancedThen(r0, r1, r2, d, 0, 0, false, c, 0, 0, false);
    AdvancedThen(r0, r2, r3, d + c, 0, 0, false, f, 0, 0, false);
    AdvancedThen(r0, r3, r, d + c + f, 0, 0, false, p, 0, LinkCount(t), false);
    CandidateIssuesInOrder(t, loc);
  }

  /** Collects a cell's text forms in order, counting the formulas among them. */
  method CollectCandidates(c: Cell) returns (candidates: seq<string>, formulas: nat)
    ensures candidates == CandidatesOf(c) && formulas == CellFormulas(c)
  {
    candidates := [];
    formulas := 0;
    if c.formula != "" {
      candidates := candidates + [c.formula];
      formulas := formulas + 1;
    }
    if c.value != "" {
      if StartsWith(c.value, "=") {
        candidates := candidates + [c.value];
        formulas := formulas + 1;
      } else {
        candidates := candidates + [c.value];
      }
    }
    if c.text != "" {
      candidates := candidates + [c.text];
    }
    if c.html != "" {
      candidates := candidates + [c.html];
    }
  }

  /** Checks each collected form in turn. */
  method ScanCandidates(r0: ScanResult, candidates: seq<string>, loc: Location) returns (r: ScanResult)
    ensures Advanced(r0, r, CandidatesIssues(candidates, loc), 0, CandidatesLinks(candidates), false)
  {
    hide Advanced, CandidateIssues;
    r := r0;
    AdvancedNothing(r0);
    assert candidates[..0] == [];
    var k := 0;
    while k < |candidates|
      invariant 0 <= k <= |candidates|
      invariant Advanced(r0, r, CandidatesIssues(candidates[..k], loc), 0, CandidatesLinks(candidates[..k]), false)
    {
      var r' := ScanCandidate(r, candidates[k], loc);
      AdvancedThen(r0, r, r', CandidatesIssues(candidates[..k], loc), 0, CandidatesLinks(candidates[..k]), false,
                   CandidateIssues(candidates[k], loc), 0, LinkCount(candidates[k]), false);
      assert candidates[..k + 1][..k] == candidates[..k];
      r := r';
      k := k + 1;
    }
    assert candidates[..k] == candidates;
  }

  /** Appending one form adds its issues and its link count. */
  lemma CandidatesSnoc(ts: seq<string>, t: string, loc: Location)
    ensures CandidatesIssues(ts + [t], loc) == CandidatesIssues(ts, loc) + CandidateIssues(t, loc)
    ensures CandidatesLinks(ts + [t]) == CandidatesLinks(ts) + LinkCount(t)
  {
    assert (ts + [t])[..|ts|] == ts;
  }

  /** A form that is not collected would have added nothing. */
  lemma CollectAdds(ts: seq<string>, t: string, loc: Location)
    ensures CandidatesIssues(Collect(ts, t), loc) == CandidatesIssues(ts, loc) + CandidateIssues(t, loc)
    ensures CandidatesLinks(Collect(ts, t)) == CandidatesLinks(ts) + LinkCount(t)
  {
    if t == "" {
      BlankNotLinkLike(t);
      assert CandidateIssues(t, loc) == [];
    } else {
      CandidatesSnoc(ts, t, loc);
    }
  }

  /** Collecting only the present forms loses no issue and no link. */
  lemma CandidatesOfCell(c: Cell, loc: Location)
    ensures CandidatesIssues(CandidatesOf(c), loc) == CandidatesIssues(FormsOf(c), loc)
    ensures CandidatesLinks(CandidatesOf(c)) == CandidatesLinks(FormsOf(c))
  {
    hide CandidatesIssues, CandidatesLinks, CandidateIssues, LinkCount, Collect;
    var c1 := Collect([], c.formula);
    var c2 := Collect(c1, c.value);
    var c3 := Collect(c2, c.text);
    CollectAdds([], c.formula, loc);
    CollectAdds(c1, c.value, loc);
    CollectAdds(c2, c.text, loc);
    CollectAdds(c3, c.html, loc);
    CandidatesSnoc([], c.formula, loc);
    CandidatesSnoc([c.formula], c.value, loc);
    CandidatesSnoc([c.formula, c.value], c.text, loc);
    CandidatesSnoc([c.formula, c.value, c.text], c.html, loc);
    assert [c.formula] == [] + [c.formula];
    assert [c.formula, c.value] == [c.formula] + [c.value];
    assert [c.formula, c.value, c.text] == [c.formula, c.value] + [c.text];
    assert FormsOf(c) == [c.formula, c.value, c.text] + [c.html];
  }

  /** A cell's issues and links, by the forms actually collected. */
  lemma CellByCandidates(c: Cell, loc: Location)
    ensures CellIssues(c, loc) == CandidatesIssues(CandidatesOf(c), loc) + LinkIssues(c.link, loc)
    ensures CellLinks(c) == CandidatesLinks(CandidatesOf(c)) + if c.link.Some? then 1 else 0
  {
    CandidatesOfCell(c, loc);
  }

  /** One cell: its text forms, then its hyperlink. */
  method ScanCell(r0: ScanResult, c: Cell, loc: Location) returns (r: ScanResult)
    ensures Advanced(r0, r, CellIssues(c, loc), CellFormulas(c), CellLinks(c), false)
  {
    hide *;
    var candidates, formulas := CollectCandidates(c);
    AddFormulasAdvances(r0, formulas);
    var r1 := AddFormulas(r0, formulas);
    var r2 := ScanCandidates(r1, candidates, loc);
    r := CheckHyperlink(r2, c.link, loc);
    ghost var cs, ls := CandidatesIssues(candidates, loc), CandidatesLinks(candidates);
    AdvancedThen(r0, r1, r2, [], formulas, 0, false, cs, 0, ls, false);
    assert [] + cs == cs;
    AdvancedThen(r0, r2, r, cs, formulas, ls, false, LinkIssues(c.link, loc), 0, if c.link.Some? then 1 else 0, false);
    CellByCandidates(c, loc);
  }


  /** The hidden-row check: the first hidden row of the workbook records one issue. */
  method CheckHiddenRow(r0: ScanResult, s: Sheet, row: Row) returns (r: ScanResult)
    ensures Advanced(r0, r, HiddenRowIssues(r0.securityIssues, s.name, row), 0, 0, row.hidden)
  {
    hide Advanced;
    r := r0;
    AdvancedNothing(r0);
    if row.hidden {
      SeeHiddenAdvances(r0);
      r := SeeHidden(r0);
      if !HasMarked(r.securityIssues) {
        var issue := HiddenRowIssue(s.name);
        RecordAdvances(r, issue);
        AdvancedThen(r0, r, Record(r, issue), [], 0, 0, true, [issue], 0, 0, false);
        assert [] + [issue] == [issue];
        r := Record(r, issue);
      }
    }
  }

  /** One column of a row: the hidden-column check, then the cell, if there is one. */
  method ScanColumn(r0: ScanResult, s: Sheet, ri: nat, col: nat, slot: Option<Cell>) returns (r: ScanResult)
    ensures Advanced(r0, r, SlotIssues(s.name, ri, col, slot), SlotFormulas(slot), SlotLinks(slot),
                     ColHidden(s.hiddenCols, col))
  {
    hide Advanced, CellIssues, CellLinks, CellFormulas;
    var r1 := r0;
    AdvancedNothing(r0);
    if col < |s.hiddenCols| && s.hiddenCols[col] {
      SeeHiddenAdvances(r0);
      r1 := SeeHidden(r0);
    }
    if slot.Some? {
      r := ScanCell(r1, slot.value, CellLoc(s.name, ri, col));
    } else {
      r := r1;
      AdvancedNothing(r1);
    }
    AdvancedThen(r0, r1, r, [], 0, 0, ColHidden(s.hiddenCols, col),
                 SlotIssues(s.name, ri, col, slot), SlotFormulas(slot), SlotLinks(slot), false);
    assert [] + SlotIssues(s.name, ri, col, slot) == SlotIssues(s.name, ri, col, slot);
  }

  /** The columns of row `ri`, left to right. */
  method ScanCells(r0: ScanResult, s: Sheet, ri: nat, cells: seq<Option<Cell>>) returns (r: ScanResult)
    ensures Advanced(r0, r, CellsIssues(s.name, ri, cells, |cells|), CellsFormulas(cells, |cells|),
                     CellsLinks(cells, |cells|), ColsHidden(s.hiddenCols, |cells|))
  {
    hide Advanced, SlotIssues;
    r := r0;
    AdvancedNothing(r0);
    var col := 0;
    while col < |cells|
      invariant 0 <= col <= |cells|
      invariant Advanced(r0, r, CellsIssues(s.name, ri, cells, col), CellsFormulas(cells, col),
                         CellsLinks(cells, col), ColsHidden(s.hiddenCols, col))
    {
      var r' := ScanColumn(r, s, ri, col, cells[col]);
      AdvancedThen(r0, r, r', CellsIssues(s.name, ri, cells, col), CellsFormulas(cells, col),
                   CellsLinks(cells, col), ColsHidden(s.hiddenCols, col),
                   SlotIssues(s.name, ri, col, cells[col]), SlotFormulas(cells[col]), SlotLinks(cells[col]),
                   ColHidden(s.hiddenCols, col));
      r := r';
      col := col + 1;
    }
  }

  /** Visits one row of a sheet's range: the hidden-row check, then every column. */
  method ScanRow(r0: ScanResult, s: Sheet, ri: nat) returns (r: ScanResult)
    requires ri < |s.rows|
    ensures Advanced(r0, r, RowIssues(r0.securityIssues, s.name, ri, s.rows[ri]),
                     CellsFormulas(s.rows[ri].cells, |s.rows[ri].cells|), CellsLinks(s.rows[ri].cells, |s.rows[ri].cells|),
                     RowMeetsHidden(s.rows[ri], s.hiddenCols))
  {
    hide Advanced;
    var row := s.rows[ri];
    var r1 := CheckHiddenRow(r0, s, row);
    r := ScanCells(r1, s, ri, row.cells);
    ghost var n := |row.cells|;
    AdvancedThen(r0, r1, r, HiddenRowIssues(r0.securityIssues, s.name, row), 0, 0, row.hidden,
                 CellsIssues(s.name, ri, row.cells, n), CellsFormulas(row.cells, n), CellsLinks(row.cells, n),
                 ColsHidden(s.hiddenCols, n));
  }

  /** The rows of a present sheet's range, top to bottom. */
  method ScanRows(r0: ScanResult, s: Sheet) returns (r: ScanResult)
    ensures Advanced(r0, r, RowsIssues(r0.securityIssues, s.name, s.rows, |s.rows|), RowsFormulas(s.rows, |s.rows|),
                     RowsLinks(s.rows, |s.rows|), RowsMeetHidden(s.rows, s.hiddenCols, |s.rows|))
  {
    hide Advanced, RowIssues;
    ghost var acc := r0.securityIssues;
    r := r0;
    AdvancedNothing(r0);
    var ri := 0;
    while ri < |s.rows|
      invariant 0 <= ri <= |s.rows|
      invariant Advanced(r0, r, RowsIssues(acc, s.name, s.rows, ri), RowsFormulas(s.rows, ri),
                         RowsLinks(s.rows, ri), RowsMeetHidden(s.rows, s.hiddenCols, ri))
    {
      ghost var before := RowsIssues(acc, s.name, s.rows, ri);
      AdvancedIssues(r0, r, before, RowsFormulas(s.rows, ri), RowsLinks(s.rows, ri), RowsMeetHidden(s.rows, s.hiddenCols, ri));
      var r' := ScanRow(r, s, ri);
      AdvancedThen(r0, r, r', before, RowsFormulas(s.rows, ri), RowsLinks(s.rows, ri),
                   RowsMeetHidden(s.rows, s.hiddenCols, ri),
                   RowIssues(acc + before, s.name, ri, s.rows[ri]),
                   CellsFormulas(s.rows[ri].cells, |s.rows[ri].cells|), CellsLinks(s.rows[ri].cells, |s.rows[ri].cells|),
                   RowMeetsHidden(s.rows[ri], s.hiddenCols));
      r := r';
      ri := ri + 1;
    }
  }

  /** Visits one sheet: nothing for a missing sheet, else the hidden-sheet check, then every row of its range. */
  method ScanSheet(r0: ScanResult, s: Sheet) returns (r: ScanResult)
    ensures Advanced(r0, r, SheetIssues(r0.securityIssues, s), SheetFormulas(s), SheetLinks(s),
                     SheetMeetsHidden(s))
  {
    hide Advanced;
    if !s.present {
      AdvancedNothing(r0);
      return r0;
    }
    var r1 := r0;
    AdvancedNothing(r0);
    if s.hidden {
      var issue := Issue(HiddenSheet(s.name), SheetLoc(s.name), None);
      RecordAdvances(r0, issue);
      r1 := Record(r0, issue);
    }
    r := ScanRows(r1, s);
    AdvancedThen(r0, r1, r, HiddenSheetIssues(s), 0, 0, false,
                 RowsIssues(r1.securityIssues, s.name, s.rows, |s.rows|), RowsFormulas(s.rows, |s.rows|),
                 RowsLinks(s.rows, |s.rows|), RowsMeetHidden(s.rows, s.hiddenCols, |s.rows|));
  }

  /** Every sheet named by the workbook, in order. */
  method ScanSheets(r0: ScanResult, sheets: seq<Sheet>) returns (r: ScanResult)
    ensures Advanced(r0, r, SheetsIssues(r0.securityIssues, sheets, |sheets|), SheetsFormulas(sheets, |sheets|),
                     SheetsLinks(sheets, |sheets|), SheetsMeetHidden(sheets, |sheets|))
  {
    hide Advanced, SheetIssues;
    ghost var acc := r0.securityIssues;
    r := r0;
    AdvancedNothing(r0);
    var si := 0;
    while si < |sheets|
      invariant 0 <= si <= |sheets|
      invariant Advanced(r0, r, SheetsIssues(acc, sheets, si), SheetsFormulas(sheets, si),
                         SheetsLinks(sheets, si), SheetsMeetHidden(sheets, si))
    {
      ghost var before := SheetsIssues(acc, sheets, si);
      AdvancedIssues(r0, r, before, SheetsFormulas(sheets, si), SheetsLinks(sheets, si), SheetsMeetHidden(sheets, si));
      var r' := ScanSheet(r, sheets[si]);
      AdvancedThen(r0, r, r', before, SheetsFormulas(sheets, si), SheetsLinks(sheets, si),
                   SheetsMeetHidden(sheets, si),
                   SheetIssues(acc + before, sheets[si]), SheetFormulas(sheets[si]),
                   SheetLinks(sheets[si]), SheetMeetsHidden(sheets[si]));
      r := r';
      si := si + 1;
    }
  }

  /** One defined name: an auto-run name records one issue. */
  method CheckName(r0: ScanResult, name: string) returns (r: ScanResult)
    ensures Advanced(r0, r, NameIssues(name), 0, 0, false)
  {
    hide Advanced;
    r := r0;
    AdvancedNothing(r0);
    if IsAutoRunName(name) {
      var issue := Issue(AutoRunName(name), Nowhere, None);
      RecordAdvances(r0, issue);
      r := Record(r0, issue);
    }
  }

  method ScanNames(r0: ScanResult, names: seq<string>) returns (r: ScanResult)
    ensures Advanced(r0, r, NamesIssues(names, |names|), 0, 0, false)
  {
    hide Advanced, NameIssues;
    r := r0;
    AdvancedNothing(r0);
    var ni := 0;
    while ni < |names|
      invariant 0 <= ni <= |names|
      invariant Advanced(r0, r, NamesIssues(names, ni), 0, 0, false)
    {
      var r' := CheckName(r, names[ni]);
      AdvancedThen(r0, r, r', NamesIssues(names, ni), 0, 0, false, NameIssues(names[ni]), 0, 0, false);
      r := r';
      ni := ni + 1;
    }
  }


  /** `scanExcelFile`: the whole scan of one workbook. */
  method ScanExcelFile(outcome: ParseOutcome) returns (r: ScanResult)
    ensures outcome.Unreadable? ==> r == UnreadableResult()
    ensures Consistent(r)
    ensures r.riskLevel == LevelFor(r.riskScore)
    ensures outcome.Parsed? ==>
      var wb := outcome.workbook;
      && r.securityIssues == WorkbookIssues(wb)
      && r.sheetCount == |wb.sheets|
      && r.formulaCount == WorkbookFormulas(wb)
      && r.externalLinkCount == WorkbookLinks(wb)
      && r.hasHiddenRowsCols == WorkbookMeetsHidden(wb)
  {
    hide Advanced, TallyOf, WorkbookIssues, SheetsIssues, NamesIssues;
    if outcome.Unreadable? {
      r := UnreadableResult();
      UnreadableConsistent();
      return;
    }
    var wb := outcome.workbook;
    var r0 := InitialResult(|wb.sheets|);
    var r1 := r0;
    AdvancedNothing(r0);
    if wb.hasMacros {
      var issue := Issue(VbaMacro, Nowhere, None);
      RecordAdvances(r0, issue);
      r1 := Record(r0, issue);
    }
    var r2 := ScanSheets(r1, wb.sheets);
    var r3 := r2;
    AdvancedNothing(r2);
    if wb.hasObjects {
      var issue := Issue(EmbeddedObjects, Nowhere, None);
      RecordAdvances(r2, issue);
      r3 := Record(r2, issue);
    }
    r := ScanNames(r3, wb.definedNames);
    FileAdvanced(wb, r0, r1, r2, r3, r);
    r := r.(riskLevel := LevelFor(r.riskScore));
  }

  /** The four stretches of `ScanExcelFile` make up the workbook's issues and keep the invariant. */
  lemma FileAdvanced(wb: Workbook, r0: ScanResult, r1: ScanResult, r2: ScanResult, r3: ScanResult, r: ScanResult)
    requires r0 == InitialResult(|wb.sheets|)
    requires Advanced(r0, r1, MacroIssues(wb), 0, 0, false)
    requires Advanced(r1, r2, SheetsIssues(r1.securityIssues, wb.sheets, |wb.sheets|), WorkbookFormulas(wb),
                      WorkbookLinks(wb), WorkbookMeetsHidden(wb))
    requires Advanced(r2, r3, ObjectIssues(wb), 0, 0, false)
    requires Advanced(r3, r, NamesIssues(wb.definedNames, |wb.definedNames|), 0, 0, false)
    ensures Consistent(r)
    ensures r.securityIssues == WorkbookIssues(wb)
    ensures r.sheetCount == |wb.sheets|
    ensures r.formulaCount == WorkbookFormulas(wb)
    ensures r.externalLinkCount == WorkbookLinks(wb)
    ensures r.hasHiddenRowsCols == WorkbookMeetsHidden(wb)
  {
    hide SheetsIssues, NamesIssues, WorkbookFormulas, WorkbookLinks, WorkbookMeetsHidden;
    var m, o := MacroIssues(wb), ObjectIssues(wb);
    assert r1.securityIssues == m;
    var sh := SheetsIssues(m, wb.sheets, |wb.sheets|);
    var sf, sl, sm := WorkbookFormulas(wb), WorkbookLinks(wb), WorkbookMeetsHidden(wb);
    AdvancedThen(r0, r1, r2, m, 0, 0, false, sh, sf, sl, sm);
    AdvancedThen(r0, r2, r3, m + sh, sf, sl, sm, o, 0, 0, false);
    AdvancedThen(r0, r3, r, m + sh + o, sf, sl, sm, NamesIssues(wb.definedNames, |wb.definedNames|), 0, 0, false);
    WorkbookAtMostOne(wb);
    assert r0.securityIssues + WorkbookIssues(wb) == WorkbookIssues(wb);
    AdvancedKeeps(r0, r, WorkbookIssues(wb), sf, sl, sm);
  }

  // ---------------------------------------------------------------------
  // What single checks report

  /** `CUBESETCOUNT` is never reported: any text naming it names `CUBESET`, which is listed first. */
  lemma CubeSetCountShadowed(t: string, loc: Location)
    ensures forall i | i in FunctionIssues(t, loc) :: i.cause != DangerousFunction("CUBESETCOUNT")
  {
    var u := ToUpper(t);
    FirstContainedMeans(u, DANGEROUS_FUNCTIONS);
    var k := FirstContained(u, DANGEROUS_FUNCTIONS);
    if k.Some? && DANGEROUS_FUNCTIONS[k.value] == "CUBESETCOUNT" {
      assert k.value == 8;
      assert "CUBESET" + "COUNT" == DANGEROUS_FUNCTIONS[8];
      assert DANGEROUS_FUNCTIONS[7] == "CUBESET";
      ContainsPrefixPart(u, "CUBESET", "COUNT");
    }
  }

  /**
   * The function check reports the first listed function the upper-cased text
   * names, critical (weight 10) exactly for the four that run code, and
   * reports nothing when the text names none.
   */
  lemma FunctionIssuesMeans(t: string, loc: Location)
    ensures var s := FunctionIssues(t, loc);
      && |s| <= 1
      && (|s| == 0 <==> forall j | 0 <= j < |DANGEROUS_FUNCTIONS| :: !Contains(ToUpper(t), DANGEROUS_FUNCTIONS[j]))
      && (|s| == 1 ==> exists k | 0 <= k < |DANGEROUS_FUNCTIONS| ::
            && s[0] == Issue(DangerousFunction(DANGEROUS_FUNCTIONS[k]), loc, Some(Take(t, 100)))
            && Contains(ToUpper(t), DANGEROUS_FUNCTIONS[k])
            && (forall j | 0 <= j < k :: !Contains(ToUpper(t), DANGEROUS_FUNCTIONS[j]))
            && (SeverityOf(s[0].cause) == Critical <==> DANGEROUS_FUNCTIONS[k] in CRITICAL_FUNCTIONS)
            && Weight(s[0].cause) == if DANGEROUS_FUNCTIONS[k] in CRITICAL_FUNCTIONS then 10 else 6)
  {
    hide Contains, ToUpper, Take;
    FirstContainedMeans(ToUpper(t), DANGEROUS_FUNCTIONS);
  }

  /**
   * The link check reports, for link-like text only, the first listed protocol
   * the lower-cased text contains: critical (weight 8) for `file://` and a UNC
   * prefix, high (weight 6) otherwise.
   */
  lemma ProtocolIssuesMeans(t: string, loc: Location)
    ensures var s := ProtocolIssues(t, loc);
      && |s| <= 1
      && (|s| == 0 <==> !LinkLike(t)
                        || forall j | 0 <= j < |SUSPICIOUS_PROTOCOLS| :: !Contains(ToLower(t), SUSPICIOUS_PROTOCOLS[j]))
      && (|s| == 1 ==> LinkLike(t) && exists k | 0 <= k < |SUSPICIOUS_PROTOCOLS| ::
            && s[0] == Issue(SuspiciousProtocol(SUSPICIOUS_PROTOCOLS[k]), loc, Some(Take(t, 100)))
            && Contains(ToLower(t), SUSPICIOUS_PROTOCOLS[k])
            && (forall j | 0 <= j < k :: !Contains(ToLower(t), SUSPICIOUS_PROTOCOLS[j]))
            && (SeverityOf(s[0].cause) == Critical <==> k == 0 || k == |SUSPICIOUS_PROTOCOLS| - 1)
            && Weight(s[0].cause) == if k == 0 || k == |SUSPICIOUS_PROTOCOLS| - 1 then 8 else 6)
  {
    hide Contains, ToLower, Take;
    FirstContainedMeans(ToLower(t), SUSPICIOUS_PROTOCOLS);
  }

  /** The DDE and command checks each report one critical issue exactly when some pattern of their table matches. */
  lemma PatternIssuesMeans(t: string, loc: Location)
    ensures |DdeIssues(t, loc)| <= 1 && |CommandIssues(t, loc)| <= 1
    ensures |DdeIssues(t, loc)| == 1 <==> exists k | 0 <= k < |DDE_PATTERNS| :: Matches(DDE_PATTERNS[k], ToLower(t))
    ensures |CommandIssues(t, loc)| == 1 <==> exists k | 0 <= k < |COMMAND_PATTERNS| :: Matches(COMMAND_PATTERNS[k], ToLower(t))
    ensures forall i | i in DdeIssues(t, loc) + CommandIssues(t, loc) :: SeverityOf(i.cause) == Critical
  {
    hide Matches, ToLower, Take;
    AnyMatchesMeans(DDE_PATTERNS, ToLower(t));
    AnyMatchesMeans(COMMAND_PATTERNS, ToLower(t));
  }

  /** The order in which a candidate's issue types come. */
  function KindRank(k: IssueType): nat
  {
    match k
    case DdeAttack => 0
    case CommandInjection => 1
    case MaliciousFormula => 2
    case _ => 3
  }

  /** Each of the four checks reports at most one issue, of its own type. */
  lemma CheckPieces(t: string, loc: Location)
    ensures |DdeIssues(t, loc)| <= 1 && forall i | i in DdeIssues(t, loc) :: KindRank(Kind(i.cause)) == 0
    ensures |CommandIssues(t, loc)| <= 1 && forall i | i in CommandIssues(t, loc) :: KindRank(Kind(i.cause)) == 1
    ensures |FunctionIssues(t, loc)| <= 1 && forall i | i in FunctionIssues(t, loc) :: KindRank(Kind(i.cause)) == 2
    ensures |ProtocolIssues(t, loc)| <= 1 && forall i | i in ProtocolIssues(t, loc) :: KindRank(Kind(i.cause)) == 3
  {
    hide AnyMatches, FirstContained, ToLower, ToUpper, Take, LinkLike;
  }

  /**
   * One candidate string adds at most one issue of each type, in the order
   * DDE, command, function, link.
   */
  lemma CandidateOnePerKind(t: string, loc: Location)
    ensures var s := CandidateIssues(t, loc);
      forall i, j | 0 <= i < j < |s| :: KindRank(Kind(s[i].cause)) < KindRank(Kind(s[j].cause))
  {
    hide DdeIssues, CommandIssues, FunctionIssues, ProtocolIssues, ChecksIssues;
    if !IsBlank(t) {
      CandidateIssuesInOrder(t, loc);
      CheckPieces(t, loc);
      var d, c, f, p := DdeIssues(t, loc), CommandIssues(t, loc), FunctionIssues(t, loc), ProtocolIssues(t, loc);
      assert RankedBelow(d, 0);
      OrderedAppend(d, c, 0);
      OrderedAppend(d + c, f, 1);
      OrderedAppend(d + c + f, p, 2);
    }
  }

  /** Ranks strictly increase along `s`, and all of them are at most `r`. */
  predicate RankedBelow(s: seq<Issue>, r: nat)
  {
    && (forall i, j | 0 <= i < j < |s| :: KindRank(Kind(s[i].cause)) < KindRank(Kind(s[j].cause)))
    && (forall i | 0 <= i < |s| :: KindRank(Kind(s[i].cause)) <= r)
  }

  /** Appending at most one issue of rank `r + 1` after issues of rank at most `r` keeps ranks increasing. */
  lemma OrderedAppend(a: seq<Issue>, b: seq<Issue>, r: nat)
    requires RankedBelow(a, r)
    requires |b| <= 1 && forall i | i in b :: KindRank(Kind(i.cause)) == r + 1
    ensures RankedBelow(a + b, r + 1)
  {
  }

  /** The test vector `cmd|"/c calc.exe"!A1` of the sample workbooks. */
  const DDE_VECTOR: string := "cmd|\"/c calc.exe\"!A1"

  lemma VectorLower()
    ensures ToLower(DDE_VECTOR) == "cmd|\"/c calc.exe\"!a1"
  {
    hide ToLower;
    var l, want := ToLower(DDE_VECTOR), "cmd|\"/c calc.exe\"!a1";
    forall i | 0 <= i < |want|
      ensures l[i] == want[i]
    {
      assert l[i] == LowerChar(DDE_VECTOR[i]);
    }
  }

  /** The test vector matches the `cmd|` DDE pattern and yields a critical DDE issue. */
  lemma VectorIsDde(loc: Location)
    ensures DdeIssues(DDE_VECTOR, loc) == [Issue(DdePattern, loc, Some(DDE_VECTOR))]
  {
    hide ToLower, AnyMatches, COMMAND_PATTERNS;
    var lower := ToLower(DDE_VECTOR);
    VectorLower();
    assert DDE_PATTERNS[7] == Prefix("cmd|");
    assert Matches(DDE_PATTERNS[7], lower);
    AnyMatchesMeans(DDE_PATTERNS, lower);
    assert Take(DDE_VECTOR, 100) == DDE_VECTOR;
  }

  /** The test vector matches the `/c` command pattern and yields a critical command issue. */
  lemma VectorIsCommand(loc: Location)
    ensures CommandIssues(DDE_VECTOR, loc) == [Issue(CommandPattern, loc, Some(DDE_VECTOR))]
  {
    hide ToLower, AnyMatches, DDE_PATTERNS;
    var lower := ToLower(DDE_VECTOR);
    VectorLower();
    assert At(lower, 5, "/c") && IsSpace(lower[7]) && At(lower, 8, "");
    assert Matches(COMMAND_PATTERNS[0], lower);
    AnyMatchesMeans(COMMAND_PATTERNS, lower);
    assert Take(DDE_VECTOR, 100) == DDE_VECTOR;
  }

  /** The test vector holds a `!` sheet reference, so it counts as one external link. */
  lemma VectorIsLink()
    ensures LinkCount(DDE_VECTOR) == 1
  {
    hide ToLower, DDE_PATTERNS, COMMAND_PATTERNS;
    assert At(DDE_VECTOR, 17, "!");
  }

  // ---------------------------------------------------------------------
  // Recommendations

  const CRITICAL_ADVICE: seq<string> := [
    "🚨 이 파일은 극도로 위험합니다. 즉시 삭제하세요.",
    "🛡️ 절대 매크로를 활성화하거나 파일을 실행하지 마세요.",
    "🔒 백신 프로그램으로 시스템 전체 검사를 수행하세요."
  ]

  const HIGH_ADVICE: seq<string> := [
    "⚠️ 이 파일에는 심각한 위험 요소가 있습니다.",
    "🔍 파일 출처를 반드시 확인하고, 매크로는 비활성화하세요.",
    "💡 신뢰할 수 있는 출처에서 다시 다운로드하는 것을 권장합니다."
  ]

  const MACRO_ADVICE: seq<string> := [
    "📌 VBA 매크로가 포함되어 있습니다. 매크로를 절대 활성화하지 마세요.",
    "💡 Excel에서 \"보호된 보기\"로 먼저 열어보세요."
  ]

  const DDE_ADVICE: seq<string> := [
    "🚫 DDE 공격 패턴이 발견되었습니다. 이 파일을 열지 마세요.",
    "⚡ Excel의 DDE 및 외부 링크 기능을 비활성화하세요."
  ]

  const COMMAND_ADVICE: seq<string> := [
    "🚨 시스템 명령어 실행 시도가 발견되었습니다. 매우 위험합니다.",
    "🛡️ 이 파일을 격리하고 보안 팀에 신고하세요."
  ]

  const LINK_ADVICE: seq<string> := [
    "🔗 외부 링크가 포함되어 있습니다. 자동 업데이트를 비활성화하세요.",
    "🌐 링크된 외부 파일이나 웹사이트가 안전한지 확인하세요."
  ]

  const HIDDEN_ADVICE: seq<string> := [
    "👁️ 숨겨진 시트나 행/열이 있습니다. 모두 표시하여 내용을 확인하세요."
  ]

  const OBJECT_ADVICE: seq<string> := [
    "📎 내장된 객체가 있습니다. 더블클릭하여 실행하지 마세요."
  ]

  const PASSED_ADVICE: seq<string> := [
    "✅ 기본적인 보안 검사를 통과했습니다.",
    "💡 그래도 출처가 불분명한 파일은 항상 주의하세요."
  ]

  /** The advice blocks, named after the condition that selects them. */
  datatype Advice = CriticalAdvice | HighAdvice | MacroAdvice | DdeAdvice | CommandAdvice
                  | LinkAdvice | HiddenAdvice | ObjectAdvice | PassedAdvice

  /** The order in which the blocks are emitted. */
  const ADVICE_ORDER: seq<Advice> := [CriticalAdvice, HighAdvice, MacroAdvice, DdeAdvice, CommandAdvice,
                                      LinkAdvice, HiddenAdvice, ObjectAdvice, PassedAdvice]

  function Lines(a: Advice): seq<string>
  {
    match a
    case CriticalAdvice => CRITICAL_ADVICE
    case HighAdvice => HIGH_ADVICE
    case MacroAdvice => MACRO_ADVICE
    case DdeAdvice => DDE_ADVICE
    case CommandAdvice => COMMAND_ADVICE
    case LinkAdvice => LINK_ADVICE
    case HiddenAdvice => HIDDEN_ADVICE
    case ObjectAdvice => OBJECT_ADVICE
    case PassedAdvice => PASSED_ADVICE
  }

  /** When a block is emitted; the level blocks exclude each other. */
  predicate Applies(a: Advice, r: ScanResult)
  {
    match a
    case CriticalAdvice => r.riskLevel == Critical
    case HighAdvice => r.riskLevel == High
    case MacroAdvice => r.hasVBAMacros
    case DdeAdvice => r.hasDDEFormulas
    case CommandAdvice => r.hasCommandInjection
    case LinkAdvice => r.hasExternalLinks
    case HiddenAdvice => r.hasHiddenSheets || r.hasHiddenRowsCols
    case ObjectAdvice => r.hasEmbeddedObjects
    case PassedAdvice => r.riskLevel == Low && |r.securityIssues| == 0
  }

  /** The lines of the blocks of `order` that apply, block after block. */
  function Emit(order: seq<Advice>, r: ScanResult): seq<string>
  {
    if |order| == 0 then []
    else (if Applies(order[0], r) then Lines(order[0]) else []) + Emit(order[1..], r)
  }

  /** `generateExcelRecommendations` */
  function ExcelRecommendations(r: ScanResult): seq<string>
  {
    Emit(ADVICE_ORDER, r)
  }

  /** A line is emitted exactly when some applying block holds it. */
  lemma {:induction false} EmitMeans(order: seq<Advice>, r: ScanResult, x: string)
    ensures x in Emit(order, r) <==> exists k | 0 <= k < |order| :: Applies(order[k], r) && x in Lines(order[k])
  {
    if |order| > 0 {
      EmitMeans(order[1..], r, x);
      if exists k | 0 <= k < |order| :: Applies(order[k], r) && x in Lines(order[k]) {
        var k :| 0 <= k < |order| && Applies(order[k], r) && x in Lines(order[k]);
        if k > 0 { assert order[1..][k - 1] == order[k]; }
      }
      if exists k | 0 <= k < |order| - 1 :: Applies(order[1..][k], r) && x in Lines(order[1..][k]) {
        var k :| 0 <= k < |order| - 1 && Applies(order[1..][k], r) && x in Lines(order[1..][k]);
        assert order[1..][k] == order[k + 1];
      }
    }
  }

  /** The first line of a block belongs to that block only. */

  /** The first lines of blocks CRITICAL_ADVICE, HIGH_ADVICE, MACRO_ADVICE differ from every line of the other blocks. */
  lemma FirstLinesDistinct0()
    ensures |CRITICAL_ADVICE| > 0 && CRITICAL_ADVICE[0] !in HIGH_ADVICE + MACRO_ADVICE + DDE_ADVICE + COMMAND_ADVICE + LINK_ADVICE + HIDDEN_ADVICE + OBJECT_ADVICE + PASSED_ADVICE
    ensures |HIGH_ADVICE| > 0 && HIGH_ADVICE[0] !in CRITICAL_ADVICE + MACRO_ADVICE + DDE_ADVICE + COMMAND_ADVICE + LINK_ADVICE + HIDDEN_ADVICE + OBJECT_ADVICE + PASSED_ADVICE
    ensures |MACRO_ADVICE| > 0 && MACRO_ADVICE[0] !in CRITICAL_ADVICE + HIGH_ADVICE + DDE_ADVICE + COMMAND_ADVICE + LINK_ADVICE + HIDDEN_ADVICE + OBJECT_ADVICE + PASSED_ADVICE
  {
  }

  /** The first lines of blocks DDE_ADVICE, COMMAND_ADVICE, LINK_ADVICE differ from every line of the other blocks. */
  lemma FirstLinesDistinct1()
    ensures |DDE_ADVICE| > 0 && DDE_ADVICE[0] !in CRITICAL_ADVICE + HIGH_ADVICE + MACRO_ADVICE + COMMAND_ADVICE + LINK_ADVICE + HIDDEN_ADVICE + OBJECT_ADVICE + PASSED_ADVICE
    ensures |COMMAND_ADVICE| > 0 && COMMAND_ADVICE[0] !in CRITICAL_ADVICE + HIGH_ADVICE + MACRO_ADVICE + DDE_ADVICE + LINK_ADVICE + HIDDEN_ADVICE + OBJECT_ADVICE + PASSED_ADVICE
    ensures |LINK_ADVICE| > 0 && LINK_ADVICE[0] !in CRITICAL_ADVICE + HIGH_ADVICE + MACRO_ADVICE + DDE_ADVICE + COMMAND_ADVICE + HIDDEN_ADVICE + OBJECT_ADVICE + PASSED_ADVICE
  {
  }

  /** The first lines of blocks HIDDEN_ADVICE, OBJECT_ADVICE, PASSED_ADVICE differ from every line of the other blocks. */
  lemma FirstLinesDistinct2()
    ensures |HIDDEN_ADVICE| > 0 && HIDDEN_ADVICE[0] !in CRITICAL_ADVICE + HIGH_ADVICE + MACRO_ADVICE + DDE_ADVICE + COMMAND_ADVICE + LINK_ADVICE + OBJECT_ADVICE + PASSED_ADVICE
    ensures |OBJECT_ADVICE| > 0 && OBJECT_ADVICE[0] !in CRITICAL_ADVICE + HIGH_ADVICE + MACRO_ADVICE + DDE_ADVICE + COMMAND_ADVICE + LINK_ADVICE + HIDDEN_ADVICE + PASSED_ADVICE
    ensures |PASSED_ADVICE| > 0 && PASSED_ADVICE[0] !in CRITICAL_ADVICE + HIGH_ADVICE + MACRO_ADVICE + DDE_ADVICE + COMMAND_ADVICE + LINK_ADVICE + HIDDEN_ADVICE + OBJECT_ADVICE
  {
  }

  /** The first line of a block belongs to that block only. */
  lemma FirstLineOwn(a: Advice, b: Advice)
    ensures |Lines(a)| > 0
    ensures Lines(a)[0] in Lines(b) <==> a == b
  {
    hide CRITICAL_ADVICE, HIGH_ADVICE, MACRO_ADVICE, DDE_ADVICE, COMMAND_ADVICE, LINK_ADVICE, HIDDEN_ADVICE, OBJECT_ADVICE, PASSED_ADVICE;
    FirstLinesDistinct0();
    FirstLinesDistinct1();
    FirstLinesDistinct2();
  }

  /** A block's first line is among the recommendations exactly when the block applies. */
  lemma AdviceMeans(r: ScanResult, a: Advice)
    ensures Lines(a)[0] in ExcelRecommendations(r) <==> Applies(a, r)
  {
    hide Lines, Emit, Applies;
    var x := (FirstLineOwn(a, a); Lines(a)[0]);
    EmitMeans(ADVICE_ORDER, r, x);
    forall k | 0 <= k < |ADVICE_ORDER|
      ensures x in Lines(ADVICE_ORDER[k]) <==> ADVICE_ORDER[k] == a
    {
      FirstLineOwn(a, ADVICE_ORDER[k]);
    }
    assert a in ADVICE_ORDER;
  }



  /** A clean result gets the two "passed" lines and nothing else. */
  lemma CleanAdvice(r: ScanResult)
    requires r.riskLevel == Low && |r.securityIssues| == 0
    requires !r.hasVBAMacros && !r.hasDDEFormulas && !r.hasCommandInjection && !r.hasExternalLinks
    requires !r.hasHiddenSheets && !r.hasHiddenRowsCols && !r.hasEmbeddedObjects
    ensures ExcelRecommendations(r) == PASSED_ADVICE
  {
    hide CRITICAL_ADVICE, HIGH_ADVICE, MACRO_ADVICE, DDE_ADVICE, COMMAND_ADVICE, LINK_ADVICE, HIDDEN_ADVICE, OBJECT_ADVICE, PASSED_ADVICE;
    var o := ADVICE_ORDER;
    assert o[8..][1..] == [];
    assert Emit(o[8..], r) == PASSED_ADVICE + [];
    assert o[7..][1..] == o[8..];
    assert o[6..][1..] == o[7..];
    assert o[5..][1..] == o[6..];
    assert o[4..][1..] == o[5..];
    assert o[3..][1..] == o[4..];
    assert o[2..][1..] == o[3..];
    assert o[1..][1..] == o[2..];
    assert Emit(o, r) == Emit(o[1..], r) == Emit(o[2..], r) == Emit(o[3..], r) == Emit(o[4..], r)
        == Emit(o[5..], r) == Emit(o[6..], r) == Emit(o[7..], r) == Emit(o[8..], r);
  }

  /** A critical or high result opens with the three lines of its level. */
  lemma LevelAdviceFirst(r: ScanResult)
    ensures r.riskLevel == Critical ==> |ExcelRecommendations(r)| >= 3 && ExcelRecommendations(r)[..3] == CRITICAL_ADVICE
    ensures r.riskLevel == High ==> |ExcelRecommendations(r)| >= 3 && ExcelRecommendations(r)[..3] == HIGH_ADVICE
  {
    var o := ADVICE_ORDER;
    if r.riskLevel == Critical {
      assert Emit(o, r) == CRITICAL_ADVICE + Emit(o[1..], r);
    } else if r.riskLevel == High {
      assert o[1..][1..] == o[2..];
      assert Emit(o, r) == Emit(o[1..], r) == HIGH_ADVICE + Emit(o[2..], r);
    }
  }

  /**
   * A consistent result without issues has score 0, level low and none of the
   * issue flags: its recommendations are the two "passed" lines and nothing else,
   * unless links were counted or hidden rows or columns were met.
   */
  lemma EmptyScanIsLow(r: ScanResult)
    requires Consistent(r) && r.riskLevel == LevelFor(r.riskScore)
    requires |r.securityIssues| == 0
    ensures r.riskScore == 0 && r.riskLevel == Low
    ensures !r.hasVBAMacros && !r.hasDDEFormulas && !r.hasCommandInjection && !r.hasEmbeddedObjects && !r.hasHiddenSheets
    ensures !r.hasExternalLinks && !r.hasHiddenRowsCols ==> ExcelRecommendations(r) == PASSED_ADVICE
  {
    if !r.hasExternalLinks && !r.hasHiddenRowsCols {
      CleanAdvice(r);
    }
  }

  // ---------------------------------------------------------------------
  // A workbook with nothing to report

  /** A candidate string none of the four tables flags. */
  predicate CleanCandidate(t: string)
  {
    && (forall k | 0 <= k < |DDE_PATTERNS| :: !Matches(DDE_PATTERNS[k], ToLower(t)))
    && (forall k | 0 <= k < |COMMAND_PATTERNS| :: !Matches(COMMAND_PATTERNS[k], ToLower(t)))
    && (forall j | 0 <= j < |DANGEROUS_FUNCTIONS| :: !Contains(ToUpper(t), DANGEROUS_FUNCTIONS[j]))
    && (LinkLike(t) ==> forall j | 0 <= j < |SUSPICIOUS_PROTOCOLS| :: !Contains(ToLower(t), SUSPICIOUS_PROTOCOLS[j]))
  }

  /** A hyperlink target, if any, that names no listed protocol. */
  predicate CleanLink(link: Option<string>)
  {
    link.Some? ==> forall j | 0 <= j < |SUSPICIOUS_PROTOCOLS| :: !Contains(ToLower(link.value), SUSPICIOUS_PROTOCOLS[j])
  }

  predicate CleanCell(c: Cell)
  {
    CleanCandidate(c.formula) && CleanCandidate(c.value) && CleanCandidate(c.text) && CleanCandidate(c.html)
    && CleanLink(c.link)
  }

  /** A shown row whose cells are all clean. */
  predicate CleanRow(row: Row)
  {
    !row.hidden && forall j | 0 <= j < |row.cells| :: row.cells[j].Some? ==> CleanCell(row.cells[j].value)
  }

  /** A missing sheet, or a shown one whose rows are all clean. */
  predicate CleanSheet(s: Sheet)
  {
    s.present ==> !s.hidden && forall i | 0 <= i < |s.rows| :: CleanRow(s.rows[i])
  }

  /** No macros, no objects, no auto-run name, and only clean sheets. */
  predicate CleanWorkbook(wb: Workbook)
  {
    && !wb.hasMacros && !wb.hasObjects
    && (forall i | 0 <= i < |wb.sheets| :: CleanSheet(wb.sheets[i]))
    && (forall i | 0 <= i < |wb.definedNames| :: !IsAutoRunName(wb.definedNames[i]))
  }

  lemma CleanCandidateSilent(t: string, loc: Location)
    requires CleanCandidate(t)
    ensures CandidateIssues(t, loc) == []
  {
    hide Matches, DDE_PATTERNS, COMMAND_PATTERNS, DANGEROUS_FUNCTIONS, SUSPICIOUS_PROTOCOLS, ToLower, ToUpper, Contains;
    if !IsBlank(t) {
      CandidateIssuesInOrder(t, loc);
      AnyMatchesMeans(DDE_PATTERNS, ToLower(t));
      AnyMatchesMeans(COMMAND_PATTERNS, ToLower(t));
      FirstContainedNone(ToUpper(t), DANGEROUS_FUNCTIONS);
      if LinkLike(t) {
        FirstContainedNone(ToLower(t), SUSPICIOUS_PROTOCOLS);
      }
    }
  }

  lemma CleanCellSilent(c: Cell, loc: Location)
    requires CleanCell(c)
    ensures CellIssues(c, loc) == []
  {
    hide CandidateIssues, CleanCandidate, SUSPICIOUS_PROTOCOLS, ToLower, Contains;
    var fs := FormsOf(c);
    CleanCandidateSilent(c.formula, loc);
    CleanCandidateSilent(c.value, loc);
    CleanCandidateSilent(c.text, loc);
    CleanCandidateSilent(c.html, loc);
    assert fs[..3][..2][..1][..0] == [];
    assert CandidatesIssues(fs[..3][..2][..1], loc) == [];
    assert CandidatesIssues(fs[..3][..2], loc) == [];
    assert CandidatesIssues(fs[..3], loc) == [];
    assert CandidatesIssues(fs, loc) == [];
    if c.link.Some? {
      FirstContainedNone(ToLower(c.link.value), SUSPICIOUS_PROTOCOLS);
    }
  }

  lemma {:induction false} CleanCellsSilent(name: string, row: nat, cells: seq<Option<Cell>>, n: nat)
    requires n <= |cells|
    requires forall j | 0 <= j < |cells| :: cells[j].Some? ==> CleanCell(cells[j].value)
    ensures CellsIssues(name, row, cells, n) == []
  {
    hide CellIssues, CleanCell;
    if n > 0 {
      CleanCellsSilent(name, row, cells, n - 1);
      if cells[n - 1].Some? {
        CleanCellSilent(cells[n - 1].value, CellLoc(name, row, n - 1));
      }
    }
  }

  lemma {:induction false} CleanRowsSilent(acc: seq<Issue>, name: string, rows: seq<Row>, n: nat)
    requires n <= |rows|
    requires forall i | 0 <= i < |rows| :: CleanRow(rows[i])
    ensures RowsIssues(acc, name, rows, n) == []
  {
    hide RowIssues, CleanRow;
    if n > 0 {
      CleanRowsSilent(acc, name, rows, n - 1);
      CleanRowSilent(acc + RowsIssues(acc, name, rows, n - 1), name, n - 1, rows[n - 1]);
    }
  }

  lemma CleanRowSilent(acc: seq<Issue>, name: string, r: nat, row: Row)
    requires CleanRow(row)
    ensures RowIssues(acc, name, r, row) == []
  {
    hide CellsIssues, CleanCell, HasMarked;
    CleanCellsSilent(name, r, row.cells, |row.cells|);
  }

  lemma {:induction false} CleanSheetsSilent(acc: seq<Issue>, sheets: seq<Sheet>, n: nat)
    requires n <= |sheets|
    requires forall i | 0 <= i < |sheets| :: CleanSheet(sheets[i])
    ensures SheetsIssues(acc, sheets, n) == []
  {
    hide RowsIssues, CleanRow;
    if n > 0 {
      CleanSheetsSilent(acc, sheets, n - 1);
      var s := sheets[n - 1];
      if s.present {
        CleanRowsSilent(acc + SheetsIssues(acc, sheets, n - 1) + HiddenSheetIssues(s), s.name, s.rows, |s.rows|);
      }
    }
  }

  lemma {:induction false} CleanNamesSilent(names: seq<string>, n: nat)
    requires n <= |names|
    requires forall i | 0 <= i < |names| :: !IsAutoRunName(names[i])
    ensures NamesIssues(names, n) == []
  {
    hide IsAutoRunName;
    if n > 0 {
      CleanNamesSilent(names, n - 1);
    }
  }

  /** A clean workbook gives no issue at all. */
  lemma CleanWorkbookSilent(wb: Workbook)
    requires CleanWorkbook(wb)
    ensures WorkbookIssues(wb) == []
  {
    hide SheetsIssues, NamesIssues, CleanSheet, IsAutoRunName;
    CleanSheetsSilent([], wb.sheets, |wb.sheets|);
    CleanNamesSilent(wb.definedNames, |wb.definedNames|);
  }

  /**
   * The result `ScanExcelFile` gives a clean workbook: score 0, level low,
   * none of the issue flags; links are reported exactly when counted, and
   * with no links and no hidden rows or columns met the advice is the two
   * "passed" lines alone.
   */
  lemma CleanWorkbookPasses(wb: Workbook, r: ScanResult)
    requires CleanWorkbook(wb)
    requires Consistent(r) && r.riskLevel == LevelFor(r.riskScore)
    requires r.securityIssues == WorkbookIssues(wb)
    requires r.externalLinkCount == WorkbookLinks(wb) && r.hasHiddenRowsCols == WorkbookMeetsHidden(wb)
    ensures r.riskScore == 0 && r.riskLevel == Low && r.securityIssues == []
    ensures !r.hasVBAMacros && !r.hasDDEFormulas && !r.hasCommandInjection && !r.hasEmbeddedObjects && !r.hasHiddenSheets
    ensures r.hasExternalLinks <==> WorkbookLinks(wb) > 0
    ensures WorkbookLinks(wb) == 0 && !WorkbookMeetsHidden(wb) ==> ExcelRecommendations(r) == PASSED_ADVICE
  {
    hide WorkbookIssues, WorkbookLinks, WorkbookMeetsHidden, CleanWorkbook, ExcelRecommendations;
    CleanWorkbookSilent(wb);
    EmptyScanIsLow(r);
  }
}
