// The library variant of the file risk calculation: the same keyword
// weights as the file-scan route, an optional spreadsheet score that can
// raise the total, and a fourth level, critical, at 10 points.

module FileRiskLevel {
  import opened Text
  import V = FileVerdict

  datatype Level = Low | Medium | High | Critical

  /** `score >= 10 ? 'critical' : score >= 8 ? 'high' : score >= 4 ? 'medium' : 'low'` */
  function LevelFor(score: int): Level
  {
    if score >= 10 then Critical else if score >= 8 then High else if score >= 4 then Medium else Low
  }

  /** The levels in increasing order of risk. */
  function Rank(l: Level): nat
  {
    match l
    case Low => 0
    case Medium => 1
    case High => 2
    case Critical => 3
  }

  /** The total before the cap: malware and the findings, raised to the spreadsheet score when one is given. */
  function Total(patterns: seq<string>, malwareDetected: bool, excelRiskScore: Option<int>): int
  {
    var heuristic := V.RawRisk(patterns, malwareDetected);
    match excelRiskScore
    case None => heuristic
    case Some(e) => Max(heuristic, e)
  }

  /** `calculateRiskLevel` with its optional spreadsheet score. */
  method CalculateRiskLevel(patterns: seq<string>, malwareDetected: bool, excelRiskScore: Option<int>)
    returns (level: Level, score: int)
    ensures level == LevelFor(Total(patterns, malwareDetected, excelRiskScore))
    ensures score == Min(10, Total(patterns, malwareDetected, excelRiskScore))
  {
    var total := 0;
    if malwareDetected {
      total := total + 10;
    }
    for i := 0 to |patterns|
      invariant total == V.MalwareBonus(malwareDetected) + V.RawScore(patterns[..i])
    {
      var pattern := patterns[i];
      if Contains(pattern, V.PE_SIGNATURE_KEYWORD) {
        total := total + 8;
      } else if Contains(pattern, V.NESTED_KEYWORD) {
        total := total + 7;
      } else if Contains(pattern, V.DANGER_KEYWORD) {
        total := total + 5;
      } else if Contains(pattern, V.DOUBLE_KEYWORD) {
        total := total + 6;
      } else if Contains(pattern, V.NAME_KEYWORD) {
        total := total + 4;
      } else if Contains(pattern, V.DOS_STUB_KEYWORD) {
        total := total + 8;
      } else {
        total := total + 2;
      }
      assert patterns[..i + 1][..i] == patterns[..i];
    }
    assert patterns[..|patterns|] == patterns;
    if excelRiskScore.Some? {
      total := Max(total, excelRiskScore.value);
    }
    level := LevelFor(total);
    score := Min(10, total);
  }

  /**
   * Malware alone is critical; without a spreadsheet score, or with a
   * non-negative one, the returned score lies in [0, 10]; a spreadsheet
   * score never lowers the total.
   */
  lemma TotalBounds(patterns: seq<string>, malwareDetected: bool, excelRiskScore: Option<int>)
    ensures var t := Total(patterns, malwareDetected, excelRiskScore);
      && t >= V.RawRisk(patterns, malwareDetected)
      && (excelRiskScore.Some? ==> t >= excelRiskScore.value)
      && (malwareDetected ==> LevelFor(t) == Critical && Min(10, t) == 10)
      && (excelRiskScore.None? || excelRiskScore.value >= 0 ==> 0 <= Min(10, t) <= 10)
      && (excelRiskScore.None? ==> t == V.MalwareBonus(malwareDetected) + V.RawScore(patterns))
  {
  }

  /** The level only rises with the total. */
  lemma LevelMonotone(a: int, b: int)
    requires a <= b
    ensures Rank(LevelFor(a)) <= Rank(LevelFor(b))
  {
  }

  /** Adding a finding never lowers the level. */
  lemma AddingPatternKeepsLevel(patterns: seq<string>, p: string, malwareDetected: bool, excelRiskScore: Option<int>)
    ensures Rank(LevelFor(Total(patterns, malwareDetected, excelRiskScore)))
      <= Rank(LevelFor(Total(patterns + [p], malwareDetected, excelRiskScore)))
  {
    V.RawScoreAppend(patterns, [p]);
    LevelMonotone(Total(patterns, malwareDetected, excelRiskScore), Total(patterns + [p], malwareDetected, excelRiskScore));
  }

  /** Setting the malware verdict never lowers the level: it makes it critical. */
  lemma MalwareKeepsLevel(patterns: seq<string>, excelRiskScore: Option<int>)
    ensures LevelFor(Total(patterns, true, excelRiskScore)) == Critical
    ensures Rank(LevelFor(Total(patterns, false, excelRiskScore))) <= Rank(LevelFor(Total(patterns, true, excelRiskScore)))
  {
  }
}
