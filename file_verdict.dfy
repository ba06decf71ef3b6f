/**
 * How the uploaded-file scanner (`app/api/scan-file/route.ts`) turns its
 * findings into a verdict: the keyword weights and the risk score, the three
 * malware indicators, the recommendations, the result record, the archive
 * entry loop and the `POST` handler.
 *
 * The score and the indicators look keywords up in the finding TEXT, and two
 * findings quote the file name. The exact-value lemmas therefore assume a name
 * free of a handful of Korean syllables that occur in the keywords
 * (`KeywordFree`); every other lemma holds for all names.
 */
module FileVerdict {
  import opened Text
  import opened FileScanner

  // ---------------------------------------------------------------------
  // Keywords

  const PE_SIGNATURE_KEYWORD := "PE(Windows 실행파일) 헤더"
  const NESTED_KEYWORD := "압축 파일 내부에 숨겨진 실행 파일"
  const DANGER_KEYWORD := "위험한 확장자"
  const DOUBLE_KEYWORD := "이중 확장자"
  const NAME_KEYWORD := "의심스러운 파일명 패턴"
  const DOS_STUB_KEYWORD := "Windows 실행 파일의 DOS 스텁"
  const DISGUISE_KEYWORD := "위장한 실행 파일"
  const PE_HEADER_KEYWORD := "PE 실행 파일 헤더"

  const DEFAULT_WEIGHT := 2

  /** The weight of one finding: that of the first keyword it contains, else 2. */
  function PatternWeight(p: string): (w: nat)
    ensures DEFAULT_WEIGHT <= w <= 8
    ensures w == DEFAULT_WEIGHT <==>
      !Contains(p, PE_SIGNATURE_KEYWORD) && !Contains(p, NESTED_KEYWORD) && !Contains(p, DANGER_KEYWORD)
      && !Contains(p, DOUBLE_KEYWORD) && !Contains(p, NAME_KEYWORD) && !Contains(p, DOS_STUB_KEYWORD)
  {
    if Contains(p, PE_SIGNATURE_KEYWORD) then 8
    else if Contains(p, NESTED_KEYWORD) then 7
    else if Contains(p, DANGER_KEYWORD) then 5
    else if Contains(p, DOUBLE_KEYWORD) then 6
    else if Contains(p, NAME_KEYWORD) then 4
    else if Contains(p, DOS_STUB_KEYWORD) then 8
    else DEFAULT_WEIGHT
  }

  /** The sum of the findings' weights. */
  function RawScore(ps: seq<string>): (s: nat)
    ensures DEFAULT_WEIGHT * |ps| <= s <= 8 * |ps|
  {
    if |ps| == 0 then 0 else RawScore(ps[..|ps| - 1]) + PatternWeight(ps[|ps| - 1])
  }

  lemma {:induction false} RawScoreAppend(xs: seq<string>, ys: seq<string>)
    ensures RawScore(xs + ys) == RawScore(xs) + RawScore(ys)
  {
    if |ys| > 0 {
      var last := |ys| - 1;
      assert (xs + ys)[..|xs + ys| - 1] == xs + ys[..last];
      RawScoreAppend(xs, ys[..last]);
    } else {
      assert xs + ys == xs;
    }
  }

  // ---------------------------------------------------------------------
  // What each finding says, for a keyword-free name

  /** The syllables that tell the keywords apart. */
  const SENTINELS: set<char> := {'헤', '압', '험', '중', '턴', '텁', '위'}

  /** None of the syllables that tell the keywords apart. */
  predicate KeywordFree(s: string)
  {
    Avoids(s, SENTINELS)
  }

  /** The weight of a finding and which of the looked-up phrases it contains. */
  datatype Traits = Traits(weight: nat, double: bool, disguise: bool, name: bool, nested: bool, peHeader: bool)

  function TraitsOf(p: string): Traits
  {
    Traits(PatternWeight(p), Contains(p, DOUBLE_KEYWORD), Contains(p, DISGUISE_KEYWORD),
      Contains(p, NAME_KEYWORD), Contains(p, NESTED_KEYWORD), Contains(p, PE_HEADER_KEYWORD))
  }

  lemma DescriptionIsKeywordFree(ext: string)
    ensures KeywordFree(ExtensionDescription(ext))
  {
    hide ExtensionDescription;
    var d := ExtensionDescription(ext);
    if d != EXECUTABLE_DESCRIPTION {
      var i :| 0 <= i < |EXTENSION_DESCRIPTIONS| && EXTENSION_DESCRIPTIONS[i] == (ext, d);
      if i < 4 {
        FirstDescriptionsAreKeywordFree(i);
      } else if i < 8 {
        MiddleDescriptionsAreKeywordFree(i);
      } else {
        LastDescriptionsAreKeywordFree(i);
      }
    }
  }

  lemma FirstDescriptionsAreKeywordFree(i: int)
    requires 0 <= i < 4
    ensures KeywordFree(EXTENSION_DESCRIPTIONS[i].1)
  {
  }

  lemma MiddleDescriptionsAreKeywordFree(i: int)
    requires 4 <= i < 8
    ensures KeywordFree(EXTENSION_DESCRIPTIONS[i].1)
  {
  }

  lemma LastDescriptionsAreKeywordFree(i: int)
    requires 8 <= i < 12
    ensures KeywordFree(EXTENSION_DESCRIPTIONS[i].1)
  {
  }

  /** A keyword-free name has a keyword-free extension. */
  lemma ExtensionIsKeywordFree(name: string)
    requires KeywordFree(name)
    ensures KeywordFree(Extension(name))
  {
    hide RawExtension;
    var raw := RawExtension(name);
    forall i | 0 <= i < |raw|
      ensures LowerChar(raw[i]) !in SENTINELS
    {
      assert raw[i] in name;
    }
  }

  /** The part after the first dot, which the double-extension finding quotes, is keyword-free too. */
  lemma QuotedIsKeywordFree(name: string)
    requires KeywordFree(name) && |Split(name, '.')| > 2
    ensures KeywordFree(Join(Split(name, '.')[1..], '.'))
  {
    hide Split, Join;
    SplitLength(name, '.');
    CountedIn(name, '.');
    JoinTail(name, '.');
  }

  lemma DangerTraits(ext: string)
    requires KeywordFree(ext)
    ensures TraitsOf(DangerousExtensionFinding(ext)) == Traits(5, false, false, false, false, false)
  {
    hide ExtensionDescription;
    var d := ExtensionDescription(ext);
    DescriptionIsKeywordFree(ext);
    var p := DangerousExtensionFinding(ext);
    var cs := {'헤', '압', '중', '턴', '위'};
    var rest := "험한 확장자 (." + ext + "): " + d;
    assert p == "위" + rest;
    assert Avoids(rest, cs);
    AvoidsNotContained(p, {'헤', '압', '중', '턴'}, PE_SIGNATURE_KEYWORD, 17);
    AvoidsNotContained(p, {'헤', '압', '중', '턴'}, NESTED_KEYWORD, 0);
    assert At(p, 0, DANGER_KEYWORD);
    AvoidsNotContained(p, {'헤', '압', '중', '턴'}, DOUBLE_KEYWORD, 1);
    NotContainedPastHead(p, DISGUISE_KEYWORD);
    AvoidsNotContained(p, {'헤', '압', '중', '턴'}, NAME_KEYWORD, 11);
    AvoidsNotContained(p, {'헤', '압', '중', '턴'}, PE_HEADER_KEYWORD, 9);
  }

  lemma DeceptiveNameAvoids()
    ensures Avoids(DECEPTIVE_NAME_FINDING, {'헤', '압', '험', '중'})
  {
  }

  lemma DeceptiveNameTraits()
    ensures TraitsOf(DECEPTIVE_NAME_FINDING) == Traits(4, false, true, true, false, false)
  {
    DeceptiveNameAvoids();
    var p := DECEPTIVE_NAME_FINDING;
    hide DECEPTIVE_NAME_FINDING;
    var cs := {'헤', '압', '험', '중'};
    AvoidsNotContained(p, cs, PE_SIGNATURE_KEYWORD, 17);
    AvoidsNotContained(p, cs, NESTED_KEYWORD, 0);
    AvoidsNotContained(p, cs, DANGER_KEYWORD, 1);
    AvoidsNotContained(p, cs, DOUBLE_KEYWORD, 1);
    NameAndDisguiseInDeceptive();
    AvoidsNotContained(p, cs, PE_HEADER_KEYWORD, 9);
  }

  lemma NameAndDisguiseInDeceptive()
    ensures Contains(DECEPTIVE_NAME_FINDING, NAME_KEYWORD) && Contains(DECEPTIVE_NAME_FINDING, DISGUISE_KEYWORD)
  {
    assert At(DECEPTIVE_NAME_FINDING, 0, NAME_KEYWORD);
    assert At(DECEPTIVE_NAME_FINDING, 21, DISGUISE_KEYWORD);
  }

  lemma DoubleExtensionTraits(exts: string)
    requires KeywordFree(exts)
    ensures TraitsOf(DoubleExtensionFinding(exts)) == Traits(6, true, false, false, false, false)
  {
    var p := DoubleExtensionFinding(exts);
    var cs := {'헤', '압', '험', '턴', '위'};
    assert Avoids(p, cs);
    AvoidsNotContained(p, cs, PE_SIGNATURE_KEYWORD, 17);
    AvoidsNotContained(p, cs, NESTED_KEYWORD, 0);
    AvoidsNotContained(p, cs, DANGER_KEYWORD, 1);
    assert At(p, 0, DOUBLE_KEYWORD);
    AvoidsNotContained(p, cs, DISGUISE_KEYWORD, 0);
    AvoidsNotContained(p, cs, NAME_KEYWORD, 11);
    AvoidsNotContained(p, cs, PE_HEADER_KEYWORD, 9);
  }

  lemma PeFindingAvoids()
    ensures Avoids(PE_FINDING, SENTINELS)
  {
  }

  lemma SpoofedZipAvoids()
    ensures Avoids(SPOOFED_ZIP_FINDING, {'압', '험', '중', '턴', '텁', 'W', 'E'})
  {
  }

  /** The spoofed-ZIP finding says "위조한 실행 파일" where the disguised one says "위장한 실행 파일". */
  lemma SpoofedZipNotDisguise()
    ensures !Contains(SPOOFED_ZIP_FINDING, DISGUISE_KEYWORD)
  {
    var a := "⚠️ ZIP 파일 헤더 대신 실행 파일 헤더 발견 - 확장자를 ";
    assert SPOOFED_ZIP_FINDING == a + "위조한 실행 파일";
    NotContainedAcross(a, "위조한 실행 파일", DISGUISE_KEYWORD);
  }

  /** Every finding about the executable header weighs 2, and only the disguised one says "위장한 실행 파일". */
  lemma PeTraits(ext: string)
    requires KeywordFree(ext)
    ensures TraitsOf(PeFindingFor(ext)) == Traits(2, false, ext != "zip" && ext !in SUSPICIOUS_EXTENSIONS, false, false, false)
  {
    PeFindingAvoids();
    SpoofedZipAvoids();
    SpoofedZipNotDisguise();
    var p := PeFindingFor(ext);
    hide SUSPICIOUS_EXTENSIONS, SPOOFED_ZIP_FINDING, PE_FINDING;
    var cs := {'압', '험', '중', '턴', '텁'};
    if ext == "zip" {
      assert p == SPOOFED_ZIP_FINDING;
      AvoidsNotContained(p, {'W', 'E'}, PE_SIGNATURE_KEYWORD, 1);
      AvoidsNotContained(p, {'W', 'E'}, PE_HEADER_KEYWORD, 1);
    } else if ext !in SUSPICIOUS_EXTENSIONS {
      var a := PE_FINDING + " - ." + ext + " 확장자로 ";
      assert p == a + DISGUISE_KEYWORD;
      assert Avoids(p, {'헤'} + cs);
      assert At(p, |a|, DISGUISE_KEYWORD);
      AvoidsNotContained(p, {'헤'}, PE_SIGNATURE_KEYWORD, 17);
      AvoidsNotContained(p, {'헤'}, PE_HEADER_KEYWORD, 9);
    } else {
      assert p == PE_FINDING;
      AvoidsNotContained(p, {'헤', '위'}, PE_SIGNATURE_KEYWORD, 17);
      AvoidsNotContained(p, {'헤', '위'}, DISGUISE_KEYWORD, 0);
      AvoidsNotContained(p, {'헤', '위'}, PE_HEADER_KEYWORD, 9);
    }
    assert Avoids(p, cs);
    AvoidsNotContained(p, cs, NESTED_KEYWORD, 0);
    AvoidsNotContained(p, cs, DANGER_KEYWORD, 1);
    AvoidsNotContained(p, cs, DOUBLE_KEYWORD, 1);
    AvoidsNotContained(p, cs, NAME_KEYWORD, 11);
    AvoidsNotContained(p, cs, DOS_STUB_KEYWORD, 20);
  }

  lemma ZipStructureAvoids()
    ensures Avoids(ZIP_STRUCTURE_FINDING, SENTINELS)
  {
  }

  lemma DosAvoids()
    ensures Avoids(DOS_FINDING, SENTINELS)
  {
  }

  /** A finding with none of the syllables weighs 2 and says none of the phrases. */
  lemma PlainTraits(p: string)
    requires KeywordFree(p)
    ensures TraitsOf(p) == Traits(2, false, false, false, false, false)
  {
    AvoidsNotContained(p, SENTINELS, PE_SIGNATURE_KEYWORD, 17);
    AvoidsNotContained(p, SENTINELS, NESTED_KEYWORD, 0);
    AvoidsNotContained(p, SENTINELS, DANGER_KEYWORD, 1);
    AvoidsNotContained(p, SENTINELS, DOUBLE_KEYWORD, 1);
    AvoidsNotContained(p, SENTINELS, NAME_KEYWORD, 11);
    AvoidsNotContained(p, SENTINELS, DOS_STUB_KEYWORD, 20);
    AvoidsNotContained(p, SENTINELS, DISGUISE_KEYWORD, 0);
    AvoidsNotContained(p, SENTINELS, PE_HEADER_KEYWORD, 9);
  }

  lemma NestedAvoids()
    ensures Avoids(NESTED_EXECUTABLE_FINDING, {'헤', '중', '턴', '위'})
  {
  }

  lemma NestedTraits()
    ensures TraitsOf(NESTED_EXECUTABLE_FINDING) == Traits(7, false, false, false, true, false)
  {
    NestedAvoids();
    var p := NESTED_EXECUTABLE_FINDING;
    hide NESTED_EXECUTABLE_FINDING;
    var cs := {'헤', '중', '턴', '위'};
    AvoidsNotContained(p, cs, PE_SIGNATURE_KEYWORD, 17);
    assert p == NESTED_KEYWORD by {
      NestedIsKeyword();
    }
    ContainsSelf(p);
    AvoidsNotContained(p, cs, DOUBLE_KEYWORD, 1);
    AvoidsNotContained(p, cs, NAME_KEYWORD, 11);
    AvoidsNotContained(p, cs, DISGUISE_KEYWORD, 0);
    AvoidsNotContained(p, cs, PE_HEADER_KEYWORD, 9);
  }

  lemma NestedIsKeyword()
    ensures NESTED_EXECUTABLE_FINDING == NESTED_KEYWORD
  {
  }

  // ---------------------------------------------------------------------
  // What the findings of one file say together

  const NO_TRAITS := Traits(0, false, false, false, false, false)

  function Combine(a: Traits, b: Traits): Traits
  {
    Traits(a.weight + b.weight, a.double || b.double, a.disguise || b.disguise, a.name || b.name,
      a.nested || b.nested, a.peHeader || b.peHeader)
  }

  /** The findings' weights summed and their phrases collected. */
  function Tally(ps: seq<string>): Traits
  {
    if |ps| == 0 then NO_TRAITS else Combine(Tally(ps[..|ps| - 1]), TraitsOf(ps[|ps| - 1]))
  }

  lemma {:induction false} TallyAppend(xs: seq<string>, ys: seq<string>)
    ensures Tally(xs + ys) == Combine(Tally(xs), Tally(ys))
  {
    if |ys| > 0 {
      var last := |ys| - 1;
      assert (xs + ys)[..|xs + ys| - 1] == xs + ys[..last];
      TallyAppend(xs, ys[..last]);
    } else {
      assert xs + ys == xs;
    }
  }

  /** The tally is the raw score and the `some(p => p.includes(…))` tests of the source. */
  lemma {:induction false} TallyMeans(ps: seq<string>)
    ensures Tally(ps).weight == RawScore(ps)
    ensures Tally(ps).double == SomeContains(ps, DOUBLE_KEYWORD)
    ensures Tally(ps).disguise == SomeContains(ps, DISGUISE_KEYWORD)
    ensures Tally(ps).name == SomeContains(ps, NAME_KEYWORD)
    ensures Tally(ps).nested == SomeContains(ps, NESTED_KEYWORD)
    ensures Tally(ps).peHeader == SomeContains(ps, PE_HEADER_KEYWORD)
  {
    if |ps| > 0 {
      var init, last := ps[..|ps| - 1], [ps[|ps| - 1]];
      assert ps == init + last;
      TallyMeans(init);
      SomeContainsAppend(init, last, DOUBLE_KEYWORD);
      SomeContainsAppend(init, last, DISGUISE_KEYWORD);
      SomeContainsAppend(init, last, NAME_KEYWORD);
      SomeContainsAppend(init, last, NESTED_KEYWORD);
      SomeContainsAppend(init, last, PE_HEADER_KEYWORD);
    }
  }

  /** 1 when a part holds a finding, 0 when it is empty. */
  function Has(part: seq<string>): nat
  {
    if |part| > 0 then 1 else 0
  }

  /**
   * For a name free of the keyword syllables, every finding weighs what its
   * kind says (5 dangerous extension, 4 deceptive name, 6 double extension, 7
   * nested executable, 2 each for the header, ZIP-structure and DOS findings);
   * only the double-extension finding mentions "이중 확장자", the deceptive name
   * and the disguised header findings say "위장한 실행 파일", and no finding
   * ever says "PE 실행 파일 헤더".
   */
  lemma FindingsTally(name: string, buf: seq<byte>)
    requires KeywordFree(name)
    ensures var ext := Extension(name);
      Tally(SuspiciousPatterns(name, buf)) == Traits(
        5 * Has(DangerPart(ext)) + 4 * Has(NamePart(name)) + 6 * Has(DoubleExtensionPart(name))
        + 2 * (Has(PePart(ext, buf)) + Has(ZipPart(ext, buf)) + Has(DosPart(buf))) + 7 * Has(NestedPart(name, ext)),
        |Split(name, '.')| > 2,
        SuspiciousName(name) || (IsPeHeader(buf) && ext != "zip" && ext !in SUSPICIOUS_EXTENSIONS),
        SuspiciousName(name),
        |NestedPart(name, ext)| > 0,
        false)
  {
    hide Extension, SuspiciousName, Split, IsPeHeader, SUSPICIOUS_EXTENSIONS, DangerPart, NamePart, DoubleExtensionPart,
      PePart, ZipPart, DosPart, NestedPart, Tally;
    var ext := Extension(name);
    ExtensionIsKeywordFree(name);
    var d, n, x := DangerPart(ext), NamePart(name), DoubleExtensionPart(name);
    var pe, z, dos, h := PePart(ext, buf), ZipPart(ext, buf), DosPart(buf), NestedPart(name, ext);
    DangerPartTally(ext);
    NamePartTally(name);
    DoubleExtensionPartTally(name);
    PePartTally(ext, buf);
    ZipPartTally(ext, buf);
    DosPartTally(buf);
    NestedPartTally(name, ext);
    TallyAppend(d, n);
    TallyAppend(d + n, x);
    TallyAppend(d + n + x, pe);
    TallyAppend(d + n + x + pe, z);
    TallyAppend(d + n + x + pe + z, dos);
    TallyAppend(d + n + x + pe + z + dos, h);
  }

  lemma DangerPartTally(ext: string)
    requires KeywordFree(ext)
    ensures Tally(DangerPart(ext)) == Traits(5 * Has(DangerPart(ext)), false, false, false, false, false)
  {
    hide DangerousExtensionFinding, SUSPICIOUS_EXTENSIONS, TraitsOf;
    if |DangerPart(ext)| > 0 {
      DangerTraits(ext);
    }
  }

  lemma NamePartTally(name: string)
    ensures Tally(NamePart(name)) == Traits(4 * Has(NamePart(name)), false, SuspiciousName(name), SuspiciousName(name), false, false)
  {
    hide SuspiciousName, DECEPTIVE_NAME_FINDING, TraitsOf;
    if SuspiciousName(name) {
      DeceptiveNameTraits();
    }
  }

  lemma DoubleExtensionPartTally(name: string)
    requires KeywordFree(name)
    ensures Tally(DoubleExtensionPart(name)) == Traits(6 * Has(DoubleExtensionPart(name)), |Split(name, '.')| > 2, false, false, false, false)
  {
    hide Split, Join, DoubleExtensionFinding, TraitsOf;
    if |Split(name, '.')| > 2 {
      QuotedIsKeywordFree(name);
      DoubleExtensionTraits(Join(Split(name, '.')[1..], '.'));
    }
  }

  lemma PePartTally(ext: string, buf: seq<byte>)
    requires KeywordFree(ext)
    ensures Tally(PePart(ext, buf)) ==
      Traits(2 * Has(PePart(ext, buf)), false, IsPeHeader(buf) && ext != "zip" && ext !in SUSPICIOUS_EXTENSIONS, false, false, false)
  {
    hide IsPeHeader, PeFindingFor, SUSPICIOUS_EXTENSIONS, TraitsOf;
    if IsPeHeader(buf) {
      PeTraits(ext);
    }
  }

  lemma ZipPartTally(ext: string, buf: seq<byte>)
    ensures Tally(ZipPart(ext, buf)) == Traits(2 * Has(ZipPart(ext, buf)), false, false, false, false, false)
  {
    hide ZIP_STRUCTURE_FINDING, ZIP_SIGNATURES, TraitsOf;
    if |ZipPart(ext, buf)| > 0 {
      ZipStructureAvoids();
      PlainTraits(ZIP_STRUCTURE_FINDING);
    }
  }

  lemma DosPartTally(buf: seq<byte>)
    ensures Tally(DosPart(buf)) == Traits(2 * Has(DosPart(buf)), false, false, false, false, false)
  {
    hide DOS_FINDING, HasDosMessage, TraitsOf;
    if HasDosMessage(buf) {
      DosAvoids();
      PlainTraits(DOS_FINDING);
    }
  }

  lemma NestedPartTally(name: string, ext: string)
    ensures Tally(NestedPart(name, ext)) == Traits(7 * Has(NestedPart(name, ext)), false, false, false, |NestedPart(name, ext)| > 0, false)
  {
    hide NESTED_EXECUTABLE_FINDING, Contains, SUSPICIOUS_EXTENSIONS, TraitsOf;
    if |NestedPart(name, ext)| > 0 {
      NestedTraits();
    }
  }

  // ---------------------------------------------------------------------
  // Risk level

  datatype RiskLevel = Low | Medium | High

  /** `score >= 8 ? 'high' : score >= 4 ? 'medium' : 'low'` on the uncapped sum. */
  function LevelOf(score: int): RiskLevel
  {
    if score >= 8 then High else if score >= 4 then Medium else Low
  }

  function MalwareBonus(malwareDetected: bool): nat
  {
    if malwareDetected then 10 else 0
  }

  /** The uncapped score: 10 for malware plus the findings' weights. */
  function RawRisk(patterns: seq<string>, malwareDetected: bool): nat
  {
    MalwareBonus(malwareDetected) + RawScore(patterns)
  }

  /** `calculateRiskLevel` */
  method CalculateRiskLevel(patterns: seq<string>, malwareDetected: bool) returns (level: RiskLevel, score: int)
    ensures level == LevelOf(RawRisk(patterns, malwareDetected))
    ensures score == Min(10, RawRisk(patterns, malwareDetected))
    ensures 0 <= score <= 10
    ensures malwareDetected ==> level == High && score == 10
    ensures |patterns| >= 4 ==> level == High
    ensures |patterns| >= 2 ==> level != Low
  {
    var total := 0;
    if malwareDetected {
      total := total + 10;
    }
    for i := 0 to |patterns|
      invariant total == MalwareBonus(malwareDetected) + RawScore(patterns[..i])
    {
      var pattern := patterns[i];
      if Contains(pattern, PE_SIGNATURE_KEYWORD) {
        total := total + 8;
      } else if Contains(pattern, NESTED_KEYWORD) {
        total := total + 7;
      } else if Contains(pattern, DANGER_KEYWORD) {
        total := total + 5;
      } else if Contains(pattern, DOUBLE_KEYWORD) {
        total := total + 6;
      } else if Contains(pattern, NAME_KEYWORD) {
        total := total + 4;
      } else if Contains(pattern, DOS_STUB_KEYWORD) {
        total := total + 8;
      } else {
        total := total + 2;
      }
      assert patterns[..i + 1][..i] == patterns[..i];
    }
    assert patterns[..|patterns|] == patterns;
    level := if total >= 8 then High else if total >= 4 then Medium else Low;
    score := Min(10, total);
  }

  // ---------------------------------------------------------------------
  // Malware indicators

  /**
   * The indicators `scanFile` counts: a double extension on a listed
   * extension, a finding that says "위장한 실행 파일", and a deceptive-name
   * finding on a listed extension.
   */
  function MalwareIndicators(ext: string, patterns: seq<string>): (n: nat)
    ensures n <= 3
  {
    (if SomeContains(patterns, DOUBLE_KEYWORD) && ext in SUSPICIOUS_EXTENSIONS then 1 else 0)
    + (if SomeContains(patterns, DISGUISE_KEYWORD) then 1 else 0)
    + (if SomeContains(patterns, NAME_KEYWORD) && ext in SUSPICIOUS_EXTENSIONS then 1 else 0)
  }

  /** `malwareDetected = malwareIndicators.length >= 2` */
  predicate MalwareDetected(ext: string, patterns: seq<string>)
  {
    MalwareIndicators(ext, patterns) >= 2
  }

  /** Only a listed extension can be malware: two indicators need one of the two that ask for it. */
  lemma MalwareNeedsListedExtension(ext: string, patterns: seq<string>)
    requires MalwareDetected(ext, patterns)
    ensures ext in SUSPICIOUS_EXTENSIONS
  {
  }

  lemma ExecutableSuffixesListed()
    ensures forall x | x in EXECUTABLE_SUFFIXES :: x in SUSPICIOUS_EXTENSIONS
  {
  }

  /**
   * A deceptive name whose last component has an extension is malware: the
   * name ends in a listed extension, and the deceptive-name finding also says
   * "위장한 실행 파일".
   */
  lemma DeceptiveNameIsMalware(name: string, buf: seq<byte>)
    requires SuspiciousName(name) && Extension(name) != ""
    ensures MalwareDetected(Extension(name), SuspiciousPatterns(name, buf))
  {
    hide SuspiciousName, SUSPICIOUS_EXTENSIONS, EXECUTABLE_SUFFIXES, DECEPTIVE_NAME_FINDING, Contains;
    var ps := SuspiciousPatterns(name, buf);
    var stem, e := SuspiciousNameTail(name);
    if |stem| == 0 || stem[|stem| - 1] == '/' {
      ExtensionOfDotName(stem, e);
    } else {
      ExtensionOfName(stem, e);
    }
    ExecutableSuffixesListed();
    assert Extension(name) in SUSPICIOUS_EXTENSIONS;
    NameAndDisguiseInDeceptive();
    var i := |DangerPart(Extension(name))|;
    assert ps[i] == DECEPTIVE_NAME_FINDING;
  }

  /** `scan/.exe` matches the `^scan…\.exe$` pattern, but its last component `.exe` has no extension: one indicator only. */
  lemma HiddenExecutableInFolderIsNotMalware(buf: seq<byte>)
    ensures SuspiciousName("scan/.exe") && Extension("scan/.exe") == ""
    ensures !MalwareDetected(Extension("scan/.exe"), SuspiciousPatterns("scan/.exe", buf))
  {
    hide SuspiciousPatterns, SomeContains, MalwareDetected, Extension;
    HiddenExecutableInFolder();
    if MalwareDetected("", SuspiciousPatterns("scan/.exe", buf)) {
      MalwareNeedsListedExtension("", SuspiciousPatterns("scan/.exe", buf));
      EmptyNotListed();
    }
  }

  lemma HiddenExecutableInFolder()
    ensures SuspiciousName("scan/.exe") && Extension("scan/.exe") == ""
  {
    hide Extension, Test;
    ScanNameMatches("scan/.exe");
    assert NAME_PATTERNS[4] == Leading("scan");
    ScanNameHasNoExtension();
  }

  /** `scan.exe` and `scan/.exe` both match the `^scan…\.exe$` pattern. */
  lemma ScanNameMatches(name: string)
    requires name == "scan.exe" || name == "scan/.exe"
    ensures Test(Leading("scan"), name)
  {
    hide ToLower;
    var l := ToLower(name);
    forall i | 0 <= i < |name|
      ensures l[i] == name[i]
    {
      assert l[i] == LowerChar(name[i]);
    }
    assert l == name;
    assert EXECUTABLE_SUFFIXES[0] == "exe";
    assert EndsWith(l, "." + EXECUTABLE_SUFFIXES[0]);
    assert NoLineBreak(l[4..|l| - 4]);
  }

  lemma ScanNameHasNoExtension()
    ensures Extension("scan/.exe") == ""
  {
    hide RawExtension;
    ExtensionOfDotName("scan/", "exe");
    assert "scan/" + "." + "exe" == "scan/.exe";
  }

  lemma EmptyNotListed()
    ensures "" !in SUSPICIOUS_EXTENSIONS
  {
  }

  /**
   * For a keyword-free name the three indicators collapse into one rule:
   * malware exactly when the extension is listed and the name is deceptive.
   */
  lemma MalwareExactly(name: string, buf: seq<byte>)
    requires KeywordFree(name)
    ensures MalwareDetected(Extension(name), SuspiciousPatterns(name, buf))
      <==> Extension(name) in SUSPICIOUS_EXTENSIONS && SuspiciousName(name)
  {
    hide Extension, SuspiciousName, SuspiciousPatterns, SUSPICIOUS_EXTENSIONS, Split, IsPeHeader, SomeContains;
    var ps := SuspiciousPatterns(name, buf);
    FindingsTally(name, buf);
    TallyMeans(ps);
  }

  // ---------------------------------------------------------------------
  // Recommendations

  const HIGH_WARNING := "⚠️ 이 파일은 여러 위험 지표가 발견되었습니다. 실행하지 마세요."
  const HIGH_SOURCE := "💡 파일의 출처를 확인하고, 신뢰할 수 있는 곳에서 다시 다운로드하세요."
  const ANTIVIRUS_ADVICE := "🛡️ 백신 프로그램으로 정밀 검사를 수행하세요."
  const MEDIUM_WARNING := "⚠️ 이 파일에 일부 위험 요소가 있습니다. 주의가 필요합니다."
  const MEDIUM_SOURCE := "💡 파일의 출처가 확실한지 다시 한 번 확인하세요."
  const LOW_PASSED := "✅ 현재 검사에서는 특별한 위험이 발견되지 않았습니다."
  const LOW_SOURCE := "💡 그래도 출처가 불분명한 파일은 항상 주의하세요."
  const NESTED_ADVICE := "🔍 압축 파일 안에 실행 파일이 있습니다. 압축을 풀기 전에 내용을 확인하세요."
  const DOUBLE_ADVICE := "🎭 이중 확장자는 파일을 속이는 일반적인 방법입니다. 실제 파일 형식을 확인하세요."
  const PE_ADVICE := "🔬 이 파일은 Windows 실행 파일입니다. 확실한 출처가 아니면 실행하지 마세요."
  const ARCHIVE_ALARM := "🚨 압축 파일 내부에 위험한 파일이 포함되어 있습니다."

  // ---------------------------------------------------------------------
  // Scan results

  /** The three digests, computed by a library outside this model. */
  datatype Digests = Digests(md5: string, sha1: string, sha256: string)

  datatype ScanDetails = ScanDetails(methodName: string, findings: seq<string>)

  /** `FileScanResult`, without the VirusTotal part that is never filled in. */
  datatype FileScanResult = FileScanResult(
    filename: string,
    fileSize: nat,
    fileType: string,
    mimeType: string,
    hash: Digests,
    scanTime: nat,
    malwareDetected: bool,
    suspiciousPatterns: seq<string>,
    riskLevel: RiskLevel,
    riskScore: int,
    isArchive: bool,
    archiveContents: Option<seq<FileScanResult>>,
    recommendations: seq<string>,
    scanDetails: ScanDetails)

  /** `archiveContents?.some(f => f.malwareDetected)` */
  predicate ArchiveHasMalware(contents: Option<seq<FileScanResult>>)
  {
    contents.Some? && exists i | 0 <= i < |contents.value| :: contents.value[i].malwareDetected
  }

  function LevelAdvice(level: RiskLevel, malwareDetected: bool): seq<string>
  {
    match level
    case High => [HIGH_WARNING, HIGH_SOURCE] + (if malwareDetected then [ANTIVIRUS_ADVICE] else [])
    case Medium => [MEDIUM_WARNING, MEDIUM_SOURCE]
    case Low => [LOW_PASSED, LOW_SOURCE]
  }

  /** The lines `generateRecommendations` gives for a result, in order. */
  function Advice(r: FileScanResult): seq<string>
  {
    var ps := r.suspiciousPatterns;
    LevelAdvice(r.riskLevel, r.malwareDetected)
    + (if SomeContains(ps, NESTED_KEYWORD) then [NESTED_ADVICE] else [])
    + (if SomeContains(ps, DOUBLE_KEYWORD) then [DOUBLE_ADVICE] else [])
    + (if SomeContains(ps, PE_HEADER_KEYWORD) then [PE_ADVICE] else [])
    + (if r.isArchive && ArchiveHasMalware(r.archiveContents) then [ARCHIVE_ALARM] else [])
  }

  /** `generateRecommendations` */
  method GenerateRecommendations(r: FileScanResult) returns (recommendations: seq<string>)
    ensures recommendations == Advice(r)
  {
    hide SomeContains, ArchiveHasMalware, HIGH_WARNING, HIGH_SOURCE, ANTIVIRUS_ADVICE, MEDIUM_WARNING, MEDIUM_SOURCE,
      LOW_PASSED, LOW_SOURCE, NESTED_ADVICE, DOUBLE_ADVICE, PE_ADVICE, ARCHIVE_ALARM;
    recommendations := [];
    if r.riskLevel == High {
      recommendations := recommendations + [HIGH_WARNING];
      recommendations := recommendations + [HIGH_SOURCE];
      if r.malwareDetected {
        recommendations := recommendations + [ANTIVIRUS_ADVICE];
      }
    } else if r.riskLevel == Medium {
      recommendations := recommendations + [MEDIUM_WARNING];
      recommendations := recommendations + [MEDIUM_SOURCE];
    } else {
      recommendations := recommendations + [LOW_PASSED];
      recommendations := recommendations + [LOW_SOURCE];
    }
    ghost var sofar := LevelAdvice(r.riskLevel, r.malwareDetected);
    assert recommendations == sofar;
    if SomeContains(r.suspiciousPatterns, NESTED_KEYWORD) {
      recommendations := recommendations + [NESTED_ADVICE];
    }
    sofar := sofar + (if SomeContains(r.suspiciousPatterns, NESTED_KEYWORD) then [NESTED_ADVICE] else []);
    assert recommendations == sofar;
    if SomeContains(r.suspiciousPatterns, DOUBLE_KEYWORD) {
      recommendations := recommendations + [DOUBLE_ADVICE];
    }
    sofar := sofar + (if SomeContains(r.suspiciousPatterns, DOUBLE_KEYWORD) then [DOUBLE_ADVICE] else []);
    assert recommendations == sofar;
    if SomeContains(r.suspiciousPatterns, PE_HEADER_KEYWORD) {
      recommendations := recommendations + [PE_ADVICE];
    }
    sofar := sofar + (if SomeContains(r.suspiciousPatterns, PE_HEADER_KEYWORD) then [PE_ADVICE] else []);
    assert recommendations == sofar;
    if r.isArchive && ArchiveHasMalware(r.archiveContents) {
      recommendations := recommendations + [ARCHIVE_ALARM];
    }
  }

  /**
   * What the recommendations say: the first line names the level, the
   * antivirus line appears only for high-risk malware, and each of the four
   * closing lines appears exactly when its finding (or, for the last, an
   * archive entry judged malware) is there.
   */
  lemma AdviceMeans(r: FileScanResult)
    ensures var a := Advice(r);
      && a[0] == (match r.riskLevel case High => HIGH_WARNING case Medium => MEDIUM_WARNING case Low => LOW_PASSED)
      && (ANTIVIRUS_ADVICE in a <==> r.riskLevel == High && r.malwareDetected)
      && (NESTED_ADVICE in a <==> SomeContains(r.suspiciousPatterns, NESTED_KEYWORD))
      && (DOUBLE_ADVICE in a <==> SomeContains(r.suspiciousPatterns, DOUBLE_KEYWORD))
      && (PE_ADVICE in a <==> SomeContains(r.suspiciousPatterns, PE_HEADER_KEYWORD))
      && (ARCHIVE_ALARM in a <==> r.isArchive && ArchiveHasMalware(r.archiveContents))
  {
    hide SomeContains, ArchiveHasMalware, HIGH_WARNING, HIGH_SOURCE, ANTIVIRUS_ADVICE, MEDIUM_WARNING, MEDIUM_SOURCE,
      LOW_PASSED, LOW_SOURCE, NESTED_ADVICE, DOUBLE_ADVICE, PE_ADVICE, ARCHIVE_ALARM;
    AdviceLinesDiffer();
  }

  /** The advice depends on everything but the recommendations already present. */
  lemma AdviceIgnoresRecommendations(r: FileScanResult, recs: seq<string>)
    ensures Advice(r.(recommendations := recs)) == Advice(r)
  {
  }

  /** The eleven lines open with different symbols, except the two warnings and the three source reminders. */
  lemma AdviceLinesDiffer()
    ensures ANTIVIRUS_ADVICE !in [HIGH_WARNING, HIGH_SOURCE, MEDIUM_WARNING, MEDIUM_SOURCE, LOW_PASSED, LOW_SOURCE]
    ensures NESTED_ADVICE !in [HIGH_WARNING, HIGH_SOURCE, ANTIVIRUS_ADVICE, MEDIUM_WARNING, MEDIUM_SOURCE, LOW_PASSED, LOW_SOURCE]
    ensures DOUBLE_ADVICE !in [HIGH_WARNING, HIGH_SOURCE, ANTIVIRUS_ADVICE, MEDIUM_WARNING, MEDIUM_SOURCE, LOW_PASSED, LOW_SOURCE, NESTED_ADVICE]
    ensures PE_ADVICE !in [HIGH_WARNING, HIGH_SOURCE, ANTIVIRUS_ADVICE, MEDIUM_WARNING, MEDIUM_SOURCE, LOW_PASSED, LOW_SOURCE, NESTED_ADVICE, DOUBLE_ADVICE]
    ensures ARCHIVE_ALARM !in [HIGH_WARNING, HIGH_SOURCE, ANTIVIRUS_ADVICE, MEDIUM_WARNING, MEDIUM_SOURCE, LOW_PASSED, LOW_SOURCE, NESTED_ADVICE, DOUBLE_ADVICE, PE_ADVICE]
  {
  }

  // ---------------------------------------------------------------------
  // Scanning one file

  const SCAN_METHOD := "정적 분석 (Static Analysis)"
  const HASH_DETAIL := "파일 해시 계산 완료 (MD5, SHA1, SHA256)"
  const HEADER_DETAIL := "파일 헤더 분석: 첫 1KB 바이트 검사"
  const PE_DETAIL := "PE 헤더 발견: Windows 실행 파일 구조 확인됨"
  const ARCHIVE_DETAIL := "압축 파일로 확인됨 - 내부 파일 추가 검사 필요"

  function ExtensionDetail(ext: string): string
  {
    "확장자 검증: ." + ext + " 파일 형식 확인"
  }

  /** The scan-details lines `scanFile` records. */
  function DetailsFor(ext: string, patterns: seq<string>, isArchive: bool): ScanDetails
  {
    ScanDetails(SCAN_METHOD,
      [HASH_DETAIL, HEADER_DETAIL, ExtensionDetail(ext)]
      + (if SomeContains(patterns, PE_HEADER_KEYWORD) then [PE_DETAIL] else [])
      + (if isArchive then [ARCHIVE_DETAIL] else []))
  }

  /**
   * The result `scanFile` returns for a file: its findings, the malware
   * verdict from the indicators, the score and level from the findings and
   * the verdict, and the recommendations for that result before any archive
   * contents are attached.
   */
  function ScanResultFor(name: string, data: seq<byte>, digests: Digests, scanTime: nat): FileScanResult
  {
    var r := UnadvisedResult(name, data, digests, scanTime);
    r.(recommendations := Advice(r))
  }

  /** The result before `generateRecommendations` fills in the recommendations. */
  function UnadvisedResult(name: string, data: seq<byte>, digests: Digests, scanTime: nat): FileScanResult
  {
    var ext := Extension(name);
    var ps := SuspiciousPatterns(name, data);
    var malware := MalwareDetected(ext, ps);
    var raw := RawRisk(ps, malware);
    var isArchive := ext in ARCHIVE_EXTENSIONS;
    FileScanResult(name, |data|, if ext == "" then "unknown" else ext, GuessMimeType(name), digests,
      scanTime, malware, ps, LevelOf(raw), Min(10, raw), isArchive, None, [], DetailsFor(ext, ps, isArchive))
  }

  /** The indicator list `scanFile` builds; its length is `MalwareIndicators`. */
  method CollectIndicators(ext: string, patterns: seq<string>) returns (indicators: seq<string>)
    ensures |indicators| == MalwareIndicators(ext, patterns)
    ensures MalwareDetected(ext, patterns) <==> |indicators| >= 2
  {
    hide SomeContains, SUSPICIOUS_EXTENSIONS;
    indicators := [];
    if SomeContains(patterns, DOUBLE_KEYWORD) && ext in SUSPICIOUS_EXTENSIONS {
      indicators := indicators + ["이중 확장자를 사용한 실행 파일"];
    }
    if SomeContains(patterns, DISGUISE_KEYWORD) {
      indicators := indicators + ["문서 파일로 위장"];
    }
    if SomeContains(patterns, NAME_KEYWORD) && ext in SUSPICIOUS_EXTENSIONS {
      indicators := indicators + ["의심스러운 파일명 사용"];
    }
  }

  /** The scan-details lines `scanFile` pushes one by one. */
  method RecordDetails(ext: string, patterns: seq<string>, isArchive: bool) returns (details: ScanDetails)
    ensures details == DetailsFor(ext, patterns, isArchive)
    ensures details.findings[..3] == [HASH_DETAIL, HEADER_DETAIL, ExtensionDetail(ext)]
  {
    hide SomeContains, ExtensionDetail, HASH_DETAIL, HEADER_DETAIL, PE_DETAIL, ARCHIVE_DETAIL, SCAN_METHOD;
    var findings: seq<string> := [];
    findings := findings + [HASH_DETAIL];
    findings := findings + [HEADER_DETAIL];
    findings := findings + [ExtensionDetail(ext)];
    if SomeContains(patterns, PE_HEADER_KEYWORD) {
      findings := findings + [PE_DETAIL];
    }
    if isArchive {
      findings := findings + [ARCHIVE_DETAIL];
    }
    details := ScanDetails(SCAN_METHOD, findings);
  }

  /**
   * `scanFile`. The digests come from `hashOf` and the elapsed time is given;
   * the MIME type is the corrected lookup (see `GuessMimeTypeAsWritten`).
   */
  method ScanFile(name: string, data: seq<byte>, hashOf: seq<byte> -> Digests, scanTime: nat) returns (r: FileScanResult)
    ensures r == ScanResultFor(name, data, hashOf(data), scanTime)
  {
    hide SuspiciousPatterns, SomeContains, Advice, Extension, GuessMimeType, SUSPICIOUS_EXTENSIONS, ARCHIVE_EXTENSIONS,
      RawScore, PatternWeight, Contains, LevelOf, DetailsFor, MalwareIndicators, MalwareDetected, RawRisk, Min;
    var hash := hashOf(data);
    var mimeType := GuessMimeType(name);
    var ext := Extension(name);
    var suspiciousPatterns := CheckSuspiciousPatterns(name, data);
    var indicators := CollectIndicators(ext, suspiciousPatterns);
    var malwareDetected := |indicators| >= 2;
    var level, score := CalculateRiskLevel(suspiciousPatterns, malwareDetected);
    var isArchive := ext in ARCHIVE_EXTENSIONS;
    var details := RecordDetails(ext, suspiciousPatterns, isArchive);
    r := FileScanResult(name, |data|, if ext == "" then "unknown" else ext, mimeType, hash, scanTime,
      malwareDetected, suspiciousPatterns, level, score, isArchive, None, [], details);
    var recommendations := GenerateRecommendations(r);
    r := r.(recommendations := recommendations);
  }

  /** The score of a keyword-free name's findings, by kind (see `FindingsTally`). */
  function FindingsWeight(name: string, buf: seq<byte>): nat
  {
    var ext := Extension(name);
    5 * Has(DangerPart(ext)) + 4 * Has(NamePart(name)) + 6 * Has(DoubleExtensionPart(name))
    + 2 * (Has(PePart(ext, buf)) + Has(ZipPart(ext, buf)) + Has(DosPart(buf))) + 7 * Has(NestedPart(name, ext))
  }

  /**
   * For a keyword-free name, the scan is malware exactly when the extension
   * is listed and the name is deceptive, and the score and level come from
   * the findings' kinds plus 10 for malware; the size is the byte count,
   * the type the extension ("unknown" without one), and the result is an
   * archive exactly for the archive extensions.
   */
  lemma ScanScore(name: string, data: seq<byte>, digests: Digests, scanTime: nat)
    requires KeywordFree(name)
    ensures var r := ScanResultFor(name, data, digests, scanTime);
      var raw := (if r.malwareDetected then 10 else 0) + FindingsWeight(name, data);
      && (r.malwareDetected <==> Extension(name) in SUSPICIOUS_EXTENSIONS && SuspiciousName(name))
      && r.riskLevel == LevelOf(raw)
      && r.riskScore == Min(10, raw)
      && r.fileSize == |data|
      && r.fileType == (if Extension(name) == "" then "unknown" else Extension(name))
      && (r.isArchive <==> Extension(name) in ARCHIVE_EXTENSIONS)
  {
    hide Extension, SuspiciousName, SuspiciousPatterns, SUSPICIOUS_EXTENSIONS, ARCHIVE_EXTENSIONS, Split, IsPeHeader,
      SomeContains, Advice, DetailsFor, GuessMimeType, LevelOf, Min, MalwareDetected, DangerPart, NamePart,
      DoubleExtensionPart, PePart, ZipPart, DosPart, NestedPart, Tally, RawScore;
    var ps := SuspiciousPatterns(name, data);
    FindingsTally(name, data);
    TallyMeans(ps);
    MalwareExactly(name, data);
  }

  /** A file with no findings is low risk with score 0 and gets exactly the two "passed" lines. */
  lemma NoFindingsIsLow(name: string, data: seq<byte>, digests: Digests, scanTime: nat)
    requires SuspiciousPatterns(name, data) == []
    ensures var r := ScanResultFor(name, data, digests, scanTime);
      && !r.malwareDetected && r.riskLevel == Low && r.riskScore == 0
      && r.recommendations == [LOW_PASSED, LOW_SOURCE]
  {
    hide Extension, SuspiciousPatterns, SUSPICIOUS_EXTENSIONS, ARCHIVE_EXTENSIONS, DetailsFor, GuessMimeType,
      LOW_PASSED, LOW_SOURCE;
  }

  /**
   * A deceptive name with an extension is malware: the result is high risk
   * with score 10 and advises an antivirus scan.
   */
  lemma DeceptiveNameScan(name: string, data: seq<byte>, digests: Digests, scanTime: nat)
    requires SuspiciousName(name) && Extension(name) != ""
    ensures var r := ScanResultFor(name, data, digests, scanTime);
      && r.malwareDetected && r.riskLevel == High && r.riskScore == 10
      && ANTIVIRUS_ADVICE in r.recommendations
  {
    hide Extension, SuspiciousName, SuspiciousPatterns, SUSPICIOUS_EXTENSIONS, ARCHIVE_EXTENSIONS, DetailsFor,
      GuessMimeType, MalwareDetected, Advice, RawScore;
    DeceptiveNameIsMalware(name, data);
    AdviceMeans(UnadvisedResult(name, data, digests, scanTime));
  }

  /**
   * The archive alarm is never among a single file's recommendations: they
   * are computed while the archive contents are still unset.
   */
  lemma NoArchiveAlarm(name: string, data: seq<byte>, digests: Digests, scanTime: nat)
    ensures ARCHIVE_ALARM !in ScanResultFor(name, data, digests, scanTime).recommendations
  {
    hide Extension, SuspiciousPatterns, SUSPICIOUS_EXTENSIONS, ARCHIVE_EXTENSIONS, DetailsFor, GuessMimeType,
      MalwareDetected, Advice, RawScore, LevelOf, Min;
    AdviceMeans(UnadvisedResult(name, data, digests, scanTime));
  }

  /**
   * For a keyword-free name neither the PE advice nor the PE scan-detail line
   * appears: no finding says "PE 실행 파일 헤더". The details are the three
   * fixed lines, plus the archive line for an archive extension.
   */
  lemma PeNeverAnnounced(name: string, data: seq<byte>, digests: Digests, scanTime: nat)
    requires KeywordFree(name)
    ensures var r := ScanResultFor(name, data, digests, scanTime);
      && PE_ADVICE !in r.recommendations
      && r.scanDetails.findings == [HASH_DETAIL, HEADER_DETAIL, ExtensionDetail(Extension(name))]
        + (if Extension(name) in ARCHIVE_EXTENSIONS then [ARCHIVE_DETAIL] else [])
  {
    hide Extension, SuspiciousName, SuspiciousPatterns, SUSPICIOUS_EXTENSIONS, ARCHIVE_EXTENSIONS, Split, IsPeHeader,
      SomeContains, Advice, GuessMimeType, LevelOf, Min, MalwareDetected, DangerPart, NamePart,
      DoubleExtensionPart, PePart, ZipPart, DosPart, NestedPart, Tally, RawScore, ExtensionDetail, HASH_DETAIL,
      HEADER_DETAIL, ARCHIVE_DETAIL, PE_DETAIL;
    var ps := SuspiciousPatterns(name, data);
    FindingsTally(name, data);
    TallyMeans(ps);
    AdviceMeans(UnadvisedResult(name, data, digests, scanTime));
  }
}
