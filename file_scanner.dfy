/**
 * The uploaded-file heuristic scanner (`app/api/scan-file/route.ts`).
 *
 * A file is a name and a byte string. The scanner looks at the name's
 * extension (as `path.extname` on POSIX finds it, lower-cased), at a table of
 * deceptive name patterns, at the number of dots, and at the first bytes: the
 * MS-DOS `MZ` signature that opens every PE image (PE Format specification,
 * "MS-DOS Stub"), the ZIP local-header, end-of-central-directory and
 * data-descriptor signatures (PKWARE APPNOTE.TXT sections 4.3.7, 4.3.16 and
 * 4.3.9) and the DOS stub message. Each observation is a finding string; the
 * score is computed afterwards by looking keywords up in those strings.
 *
 * The hash digests are computed by a foreign library and come in as a
 * function; the elapsed scan time is an input.
 */
module FileScanner {
  import opened Text

  type byte = x: int | 0 <= x < 256

  // ---------------------------------------------------------------------
  // Extensions

  const SUSPICIOUS_EXTENSIONS: seq<string> := [
    "exe", "scr", "vbs", "pif", "cmd", "bat", "com",
    "jar", "reg", "vbe", "js", "jse", "lnk", "dll",
    "sys", "ps1", "psm1", "ps1xml", "ps2", "ps2xml",
    "psc1", "psc2", "msh", "msh1", "msh2", "mshxml",
    "msh1xml", "msh2xml", "scf", "inf", "app"
  ]

  const ARCHIVE_EXTENSIONS: seq<string> := ["zip", "rar", "7z", "tar", "gz"]

  /** The name without the `/` characters that end it. */
  function StripTrailingSlashes(f: string): (r: string)
    ensures r <= f
    ensures |r| == 0 || r[|r| - 1] != '/'
  {
    if |f| > 0 && f[|f| - 1] == '/' then StripTrailingSlashes(f[..|f| - 1]) else f
  }

  /** The last path component (POSIX `path.basename`). */
  function BaseName(f: string): (b: string)
    ensures '/' !in b
    ensures forall c | c in b :: c in f
  {
    var s := StripTrailingSlashes(f);
    s[LastIndexOf(s, '/') + 1..]
  }

  /**
   * `path.extname(f).slice(1)` on POSIX: the text after the last dot of the
   * last path component, or "" when that component has no dot or its only
   * leading dot is its first character.
   */
  function RawExtension(f: string): (e: string)
    ensures '.' !in e && '/' !in e
    ensures forall c | c in e :: c in f
  {
    var b := BaseName(f);
    var d := LastIndexOf(b, '.');
    if d <= 0 then "" else b[d + 1..]
  }

  /** `path.extname(f).toLowerCase().slice(1)` */
  function Extension(f: string): string
  {
    ToLower(RawExtension(f))
  }

  /** A name `stem.e` whose stem ends inside a path component has extension `e`. */
  lemma ExtensionOfName(stem: string, e: string)
    requires |stem| > 0 && stem[|stem| - 1] != '/'
    requires '.' !in e && '/' !in e
    ensures RawExtension(stem + "." + e) == e
  {
    var f := stem + "." + e;
    assert f[|f| - 1] != '/';
    assert StripTrailingSlashes(f) == f;
    var k := LastIndexOf(f, '/');
    assert k < |stem| - 1;
    var b := f[k + 1..];
    assert b == stem[k + 1..] + "." + e;
    var d := LastIndexOf(b, '.');
    var dot := |stem| - k - 1;
    assert b[dot] == '.';
    assert d == dot;
    assert b[d + 1..] == e;
  }

  /** A name whose last component starts with its only dot (`.e`, `dir/.e`) has no extension. */
  lemma ExtensionOfDotName(stem: string, e: string)
    requires |stem| == 0 || stem[|stem| - 1] == '/'
    requires '.' !in e && '/' !in e
    ensures RawExtension(stem + "." + e) == ""
  {
    var f := stem + "." + e;
    assert f[|f| - 1] != '/';
    assert StripTrailingSlashes(f) == f;
    var k := LastIndexOf(f, '/');
    if |stem| > 0 {
      assert f[|stem| - 1] == '/';
    }
    assert k == |stem| - 1;
    var b := f[k + 1..];
    assert b == "." + e;
    assert b[0] == '.';
  }

  /** The extension is made of the name's own characters, so a character the name lacks it lacks too. */
  lemma ExtensionLacks(f: string, c: char)
    requires c !in f && !IsLetter(c)
    ensures c !in Extension(f)
  {
    LowerKeepsNonLetters(RawExtension(f), c);
  }

  // ---------------------------------------------------------------------
  // MIME types and extension descriptions

  const OCTET_STREAM := "application/octet-stream"

  const MIME_TYPES: seq<(string, string)> := [
    ("txt", "text/plain"),
    ("html", "text/html"),
    ("css", "text/css"),
    ("js", "application/javascript"),
    ("json", "application/json"),
    ("pdf", "application/pdf"),
    ("doc", "application/msword"),
    ("docx", "application/vnd.openxmlformats-officedocument.wordprocessingml.document"),
    ("xls", "application/vnd.ms-excel"),
    ("xlsx", "application/vnd.openxmlformats-officedocument.spreadsheetml.sheet"),
    ("zip", "application/zip"),
    ("rar", "application/x-rar-compressed"),
    ("7z", "application/x-7z-compressed"),
    ("exe", "application/x-msdownload"),
    ("jpg", "image/jpeg"),
    ("jpeg", "image/jpeg"),
    ("png", "image/png"),
    ("gif", "image/gif")
  ]

  /**
   * What indexing a JavaScript object literal yields: an own entry, a member
   * that every object inherits from `Object.prototype`, or `undefined`.
   */
  datatype TableValue = Own(text: string) | Inherited(member: string) | Undefined

  function IndexTable(table: seq<(string, string)>, k: string): TableValue
  {
    match Lookup(table, k)
    case Some(v) => Own(v)
    case None => if k in INHERITED_MEMBERS then Inherited(k) else Undefined
  }

  /**
   * `guessMimeType` as written: `mimeTypes[ext] || 'application/octet-stream'`.
   * An inherited member is a function or an object, hence truthy, and is
   * returned in place of a MIME string.
   */
  function GuessMimeTypeAsWritten(f: string): TableValue
  {
    match IndexTable(MIME_TYPES, Extension(f))
    case Own(v) => if v == "" then Own(OCTET_STREAM) else Own(v)
    case Inherited(m) => Inherited(m)
    case Undefined => Own(OCTET_STREAM)
  }

  lemma LowerConstructor()
    ensures ToLower("constructor") == "constructor"
  {
    hide ToLower;
    var l, want := ToLower("constructor"), "constructor";
    forall i | 0 <= i < |want|
      ensures l[i] == want[i]
    {
      assert l[i] == LowerChar(want[i]);
    }
  }

  /** A file called `report.constructor` gets the `Object` constructor as its MIME type. */
  lemma ConstructorIsNotAMimeType()
    ensures GuessMimeTypeAsWritten("report.constructor") == Inherited("constructor")
  {
    hide ToLower, RawExtension, BaseName, StripTrailingSlashes, LastIndexOf, Lookup;
    var ext := "constructor";
    ExtensionOfName("report", ext);
    assert "report" + "." + ext == "report.constructor";
    LowerConstructor();
    assert Extension("report.constructor") == ext;
    assert forall i | 0 <= i < |MIME_TYPES| :: MIME_TYPES[i].0 != ext;
    assert Lookup(MIME_TYPES, ext) == None;
    assert ext in INHERITED_MEMBERS;
  }

  /** `guessMimeType` with own entries only: the table entry for the extension, else octet-stream. */
  function GuessMimeType(f: string): (m: string)
    ensures m == OCTET_STREAM || exists i | 0 <= i < |MIME_TYPES| :: MIME_TYPES[i] == (Extension(f), m)
    ensures (forall i | 0 <= i < |MIME_TYPES| :: MIME_TYPES[i].0 != Extension(f)) ==> m == OCTET_STREAM
  {
    match Lookup(MIME_TYPES, Extension(f))
    case Some(v) => v
    case None => OCTET_STREAM
  }

  /** Away from the inherited names the corrected lookup agrees with the one as written. */
  lemma MimeTypeAgrees(f: string)
    requires Extension(f) !in INHERITED_MEMBERS
    ensures GuessMimeTypeAsWritten(f) == Own(GuessMimeType(f))
  {
    hide MIME_TYPES, Extension, Lookup, INHERITED_MEMBERS;
    MimeTypesNonEmpty();
    match Lookup(MIME_TYPES, Extension(f))
    case Some(v) =>
      var i :| 0 <= i < |MIME_TYPES| && MIME_TYPES[i] == (Extension(f), v);
    case None =>
  }

  lemma MimeTypesNonEmpty()
    ensures forall i | 0 <= i < |MIME_TYPES| :: MIME_TYPES[i].1 != ""
  {
  }

  /** A name `stem.e` gets the table's type for the lower-cased `e`. */
  lemma MimeTypeOfName(stem: string, e: string, i: nat)
    requires |stem| > 0 && stem[|stem| - 1] != '/'
    requires '.' !in e && '/' !in e
    requires i < |MIME_TYPES| && MIME_TYPES[i].0 == ToLower(e)
    ensures (ToLower(e), GuessMimeType(stem + "." + e)) in MIME_TYPES
  {
    hide MIME_TYPES;
    ExtensionOfName(stem, e);
    var r := Lookup(MIME_TYPES, ToLower(e));
    assert r.Some?;
    var j :| 0 <= j < |MIME_TYPES| && MIME_TYPES[j] == (ToLower(e), r.value);
  }

  const EXTENSION_DESCRIPTIONS: seq<(string, string)> := [
    ("exe", "Windows 실행 파일"),
    ("scr", "화면 보호기 (실행 파일)"),
    ("bat", "Windows 배치 파일"),
    ("cmd", "Windows 명령 스크립트"),
    ("com", "MS-DOS 실행 파일"),
    ("pif", "MS-DOS 프로그램 정보 파일"),
    ("vbs", "Visual Basic 스크립트"),
    ("js", "JavaScript 파일"),
    ("jar", "Java 실행 파일"),
    ("ps1", "PowerShell 스크립트"),
    ("dll", "Windows 동적 라이브러리"),
    ("msi", "Windows 설치 파일")
  ]

  const EXECUTABLE_DESCRIPTION := "실행 가능한 파일"

  /** `getExtensionDescription` */
  function ExtensionDescription(ext: string): (d: string)
    ensures d == EXECUTABLE_DESCRIPTION || exists i | 0 <= i < |EXTENSION_DESCRIPTIONS| :: EXTENSION_DESCRIPTIONS[i] == (ext, d)
  {
    match Lookup(EXTENSION_DESCRIPTIONS, ext)
    case Some(v) => if v == "" then EXECUTABLE_DESCRIPTION else v
    case None => EXECUTABLE_DESCRIPTION
  }

  /** The description table lists each extension once, each with a non-empty text. */
  lemma DescriptionsDistinct()
    ensures forall i, j | 0 <= j < i < |EXTENSION_DESCRIPTIONS| :: EXTENSION_DESCRIPTIONS[j].0 != EXTENSION_DESCRIPTIONS[i].0
    ensures forall i | 0 <= i < |EXTENSION_DESCRIPTIONS| :: EXTENSION_DESCRIPTIONS[i].1 != ""
  {
  }

  /** A listed extension gets its own entry; any other, the generic executable text. */
  lemma ExtensionDescriptionMeans(ext: string)
    ensures forall i | 0 <= i < |EXTENSION_DESCRIPTIONS| ::
              EXTENSION_DESCRIPTIONS[i].0 == ext ==> ExtensionDescription(ext) == EXTENSION_DESCRIPTIONS[i].1
    ensures (forall i | 0 <= i < |EXTENSION_DESCRIPTIONS| :: EXTENSION_DESCRIPTIONS[i].0 != ext)
            ==> ExtensionDescription(ext) == EXECUTABLE_DESCRIPTION
  {
    hide EXTENSION_DESCRIPTIONS, EXECUTABLE_DESCRIPTION;
    DescriptionsDistinct();
    forall i | 0 <= i < |EXTENSION_DESCRIPTIONS| && EXTENSION_DESCRIPTIONS[i].0 == ext
      ensures ExtensionDescription(ext) == EXTENSION_DESCRIPTIONS[i].1
    {
      LookupFinds(EXTENSION_DESCRIPTIONS, ext, i);
    }
  }

  // ---------------------------------------------------------------------
  // Deceptive names

  /** The extensions the deceptive-name patterns end with; all are listed as suspicious. */
  const EXECUTABLE_SUFFIXES: seq<string> := ["exe", "scr", "bat", "cmd", "com", "pif", "vbs", "js"]

  const DOCUMENT_SUFFIXES: seq<string> := ["jpg", "jpeg", "png", "gif", "doc", "pdf"]

  /**
   * The shapes of the case-insensitive name patterns: a fixed start
   * (`/^invoice.*\.(exe|…)$/i`) or a document extension somewhere before the
   * executable one (`/\.(jpg|…).*\.(exe|…)$/i`).
   */
  datatype NamePattern = Leading(start: string) | DocumentThenExecutable

  const NAME_PATTERNS: seq<NamePattern> := [
    Leading("invoice"), Leading("receipt"), Leading("document"), Leading("photo"),
    Leading("scan"), DocumentThenExecutable, Leading(".")
  ]

  /** From index `from` on, `.*\.(exe|…)$`: no line terminator up to a final executable extension. */
  predicate ExecutableTail(l: string, from: int)
  {
    exists k | 0 <= k < |EXECUTABLE_SUFFIXES| ::
      var tail := "." + EXECUTABLE_SUFFIXES[k];
      0 <= from && from + |tail| <= |l| && EndsWith(l, tail) && NoLineBreak(l[from..|l| - |tail|])
  }

  /** `pattern.test(name)`, matching ASCII letters without regard to case. */
  predicate Test(p: NamePattern, name: string)
  {
    var l := ToLower(name);
    match p
    case Leading(start) => StartsWith(l, start) && ExecutableTail(l, |start|)
    case DocumentThenExecutable =>
      exists i, k | 0 <= i <= |l| && 0 <= k < |DOCUMENT_SUFFIXES| ::
        At(l, i, "." + DOCUMENT_SUFFIXES[k]) && ExecutableTail(l, i + 1 + |DOCUMENT_SUFFIXES[k]|)
  }

  predicate SuspiciousName(name: string)
  {
    exists j | 0 <= j < |NAME_PATTERNS| :: Test(NAME_PATTERNS[j], name)
  }

  /** A deceptive name ends in one of the executable extensions (compared without case). */
  lemma SuspiciousNameTail(name: string) returns (stem: string, e: string)
    requires SuspiciousName(name)
    ensures name == stem + "." + e
    ensures ToLower(e) in EXECUTABLE_SUFFIXES
    ensures '.' !in e && '/' !in e
  {
    var l := ToLower(name);
    var j :| 0 <= j < |NAME_PATTERNS| && Test(NAME_PATTERNS[j], name);
    if NAME_PATTERNS[j].Leading? {
      stem, e := TailSplit(name, |NAME_PATTERNS[j].start|);
    } else {
      var i, k :| 0 <= i <= |l| && 0 <= k < |DOCUMENT_SUFFIXES|
        && At(l, i, "." + DOCUMENT_SUFFIXES[k]) && ExecutableTail(l, i + 1 + |DOCUMENT_SUFFIXES[k]|);
      stem, e := TailSplit(name, i + 1 + |DOCUMENT_SUFFIXES[k]|);
    }
  }

  /** The executable extension that ends a name, split off. */
  lemma TailSplit(name: string, from: int) returns (stem: string, e: string)
    requires ExecutableTail(ToLower(name), from)
    ensures name == stem + "." + e
    ensures ToLower(e) in EXECUTABLE_SUFFIXES
    ensures '.' !in e && '/' !in e
  {
    hide ToLower, NoLineBreak, EXECUTABLE_SUFFIXES;
    SuffixesAreLetters();
    var l := ToLower(name);
    var k :| 0 <= k < |EXECUTABLE_SUFFIXES| && var tail := "." + EXECUTABLE_SUFFIXES[k];
      0 <= from && from + |tail| <= |l| && EndsWith(l, tail) && NoLineBreak(l[from..|l| - |tail|]);
    var x := EXECUTABLE_SUFFIXES[k];
    var n := |name| - |x|;
    assert l[n - 1] == ("." + x)[0];
    stem, e := name[..n - 1], name[n..];
    assert name == stem + "." + e by {
      assert LowerChar(name[n - 1]) == '.';
    }
    assert x in EXECUTABLE_SUFFIXES && AllLetters(x);
    forall t | 0 <= t < |e|
      ensures LowerChar(e[t]) == x[t] && IsLetter(e[t])
    {
      assert l[n + t] == ("." + x)[t + 1];
      assert IsLetter(x[t]);
    }
    assert ToLower(e) == x;
  }

  lemma SuffixesAreLetters()
    ensures forall x | x in EXECUTABLE_SUFFIXES :: AllLetters(x)
  {
  }

  // ---------------------------------------------------------------------
  // Bytes

  /**
   * `buffer.toString('ascii', 0, 2) === 'MZ' || hex === '4D5A'`. Node's ascii
   * decoding drops the high bit of each byte, so bytes 0xCD 0xDA pass as well.
   */
  predicate IsPeHeader(buf: seq<byte>)
  {
    |buf| >= 2 && ((buf[0] % 128 == 0x4D && buf[1] % 128 == 0x5A) || (buf[0] == 0x4D && buf[1] == 0x5A))
  }

  /** Local file header, end of central directory, data descriptor. */
  const ZIP_SIGNATURES: seq<seq<byte>> := [[0x50, 0x4B, 0x03, 0x04], [0x50, 0x4B, 0x05, 0x06], [0x50, 0x4B, 0x07, 0x08]]

  const DOS_MESSAGE := "This program cannot be run in DOS mode"

  /** The ASCII text `t` sits in `buf` at `i`. */
  predicate BytesAt(buf: seq<byte>, i: int, t: string)
  {
    0 <= i && i + |t| <= |buf| && forall j | 0 <= j < |t| :: buf[i + j] == t[j] as int
  }

  /**
   * The first 1000 bytes, decoded as UTF-8, contain the DOS stub message. A
   * UTF-8 decoder turns every ASCII byte into itself and no other byte into an
   * ASCII character, so this is a search for the message's bytes.
   */
  predicate HasDosMessage(buf: seq<byte>)
  {
    var head := buf[..Min(1000, |buf|)];
    exists i | 0 <= i <= |head| :: BytesAt(head, i, DOS_MESSAGE)
  }

  // ---------------------------------------------------------------------
  // Findings

  function DangerousExtensionFinding(ext: string): string
  {
    "위험한 확장자 (." + ext + "): " + ExtensionDescription(ext)
  }

  const DECEPTIVE_NAME_FINDING := "의심스러운 파일명 패턴: 일반 문서로 위장한 실행 파일일 가능성"

  function DoubleExtensionFinding(exts: string): string
  {
    "이중 확장자 감지 (" + exts + "): 파일 형식을 숨기려는 시도일 수 있음"
  }

  const PE_FINDING := "Windows PE 실행 파일 구조 발견"

  const SPOOFED_ZIP_FINDING := "⚠️ ZIP 파일 헤더 대신 실행 파일 헤더 발견 - 확장자를 위조한 실행 파일"

  function DisguisedPeFinding(ext: string): string
  {
    PE_FINDING + " - ." + ext + " 확장자로 위장한 실행 파일"
  }

  const ZIP_STRUCTURE_FINDING := "⚠️ 정상적인 ZIP 파일 구조가 아님 - 다른 파일 형식일 가능성"

  const DOS_FINDING := "DOS 실행 불가 메시지 발견 - Windows 실행 파일의 특징"

  const NESTED_EXECUTABLE_FINDING := "압축 파일 내부에 숨겨진 실행 파일"

  /** The wording of the executable-header finding for extension `ext`. */
  function PeFindingFor(ext: string): string
  {
    if ext == "zip" then SPOOFED_ZIP_FINDING
    else if ext !in SUSPICIOUS_EXTENSIONS then DisguisedPeFinding(ext)
    else PE_FINDING
  }

  function DangerPart(ext: string): seq<string>
  {
    if ext in SUSPICIOUS_EXTENSIONS && ext != "zip" then [DangerousExtensionFinding(ext)] else []
  }

  function NamePart(name: string): seq<string>
  {
    if SuspiciousName(name) then [DECEPTIVE_NAME_FINDING] else []
  }

  /** `name.split('.')` has more than two parts; the finding quotes every part after the first. */
  function DoubleExtensionPart(name: string): seq<string>
  {
    var parts := Split(name, '.');
    if |parts| > 2 then [DoubleExtensionFinding(Join(parts[1..], '.'))] else []
  }

  function PePart(ext: string, buf: seq<byte>): seq<string>
  {
    if IsPeHeader(buf) then [PeFindingFor(ext)] else []
  }

  function ZipPart(ext: string, buf: seq<byte>): seq<string>
  {
    if ext == "zip" && |buf| >= 4 && buf[..4] !in ZIP_SIGNATURES then [ZIP_STRUCTURE_FINDING] else []
  }

  function DosPart(buf: seq<byte>): seq<string>
  {
    if HasDosMessage(buf) then [DOS_FINDING] else []
  }

  /** A listed extension on a name with a path separator, as archive entries have. */
  function NestedPart(name: string, ext: string): seq<string>
  {
    if (Contains(name, "/") || Contains(name, "\\")) && ext in SUSPICIOUS_EXTENSIONS && ext != "zip"
    then [NESTED_EXECUTABLE_FINDING] else []
  }

  /** What `checkSuspiciousPatterns` reports, in the order it reports it. */
  function SuspiciousPatterns(name: string, buf: seq<byte>): seq<string>
  {
    var ext := Extension(name);
    DangerPart(ext) + NamePart(name) + DoubleExtensionPart(name) + PePart(ext, buf)
    + ZipPart(ext, buf) + DosPart(buf) + NestedPart(name, ext)
  }

  /** `checkSuspiciousPatterns` */
  method CheckSuspiciousPatterns(name: string, buf: seq<byte>) returns (patterns: seq<string>)
    ensures patterns == SuspiciousPatterns(name, buf)
  {
    hide Extension, Test, Split, Join, HasDosMessage, Contains, SUSPICIOUS_EXTENSIONS, DangerousExtensionFinding,
      DoubleExtensionFinding, DECEPTIVE_NAME_FINDING, NESTED_EXECUTABLE_FINDING, DOS_FINDING, ZIP_STRUCTURE_FINDING,
      SPOOFED_ZIP_FINDING, PE_FINDING;
    patterns := [];
    var ext := Extension(name);
    if ext in SUSPICIOUS_EXTENSIONS && ext != "zip" {
      patterns := patterns + [DangerousExtensionFinding(ext)];
    }
    var sofar := DangerPart(ext);
    assert patterns == sofar;
    var j := 0;
    while j < |NAME_PATTERNS|
      invariant 0 <= j <= |NAME_PATTERNS|
      invariant forall i | 0 <= i < j :: !Test(NAME_PATTERNS[i], name)
    {
      if Test(NAME_PATTERNS[j], name) {
        patterns := patterns + [DECEPTIVE_NAME_FINDING];
        break;
      }
      j := j + 1;
    }
    sofar := sofar + NamePart(name);
    assert patterns == sofar;
    var parts := Split(name, '.');
    if |parts| > 2 {
      var exts := Join(parts[1..], '.');
      patterns := patterns + [DoubleExtensionFinding(exts)];
    }
    sofar := sofar + DoubleExtensionPart(name);
    assert patterns == sofar;
    if |buf| >= 2 {
      if (buf[0] % 128 == 0x4D && buf[1] % 128 == 0x5A) || (buf[0] == 0x4D && buf[1] == 0x5A) {
        var description := PE_FINDING;
        if ext == "zip" {
          description := SPOOFED_ZIP_FINDING;
          patterns := patterns + [description];
        } else if ext !in SUSPICIOUS_EXTENSIONS {
          description := description + " - ." + ext + " 확장자로 위장한 실행 파일";
          patterns := patterns + [description];
        } else {
          patterns := patterns + [description];
        }
      }
    }
    sofar := sofar + PePart(ext, buf);
    assert patterns == sofar;
    if ext == "zip" && |buf| >= 4 {
      if buf[..4] != ZIP_SIGNATURES[0] && buf[..4] != ZIP_SIGNATURES[1] && buf[..4] != ZIP_SIGNATURES[2] {
        patterns := patterns + [ZIP_STRUCTURE_FINDING];
      }
    }
    sofar := sofar + ZipPart(ext, buf);
    assert patterns == sofar;
    if HasDosMessage(buf) {
      patterns := patterns + [DOS_FINDING];
    }
    sofar := sofar + DosPart(buf);
    assert patterns == sofar;
    if (Contains(name, "/") || Contains(name, "\\")) && ext in SUSPICIOUS_EXTENSIONS && ext != "zip" {
      patterns := patterns + [NESTED_EXECUTABLE_FINDING];
    }
  }

  // ---------------------------------------------------------------------
  // What the findings say

  /** A finding opens with character `c`. */
  predicate Opens(s: string, c: char)
  {
    |s| > 0 && s[0] == c
  }

  /** The findings open with these characters, which tell most kinds apart. */
  lemma FindingOpenings(ext: string, exts: string)
    ensures Opens(DangerousExtensionFinding(ext), '위')
    ensures Opens(DECEPTIVE_NAME_FINDING, '의')
    ensures Opens(DoubleExtensionFinding(exts), '이')
    ensures Opens(PE_FINDING, 'W') && Opens(DisguisedPeFinding(ext), 'W')
    ensures Opens(SPOOFED_ZIP_FINDING, '⚠') && Opens(ZIP_STRUCTURE_FINDING, '⚠')
    ensures SPOOFED_ZIP_FINDING != ZIP_STRUCTURE_FINDING
    ensures Opens(DOS_FINDING, 'D')
    ensures Opens(NESTED_EXECUTABLE_FINDING, '압')
  {
    assert SPOOFED_ZIP_FINDING[3] != ZIP_STRUCTURE_FINDING[3];
  }

  /** A "dangerous extension" finding is reported exactly when the extension is listed. */
  lemma DangerousExtensionReported(name: string, buf: seq<byte>)
    ensures (exists p | p in SuspiciousPatterns(name, buf) :: Opens(p, '위')) <==> Extension(name) in SUSPICIOUS_EXTENSIONS
  {
    hide DangerousExtensionFinding, DoubleExtensionFinding, DisguisedPeFinding, Extension, SuspiciousName, Split, Join,
      IsPeHeader, HasDosMessage, Contains, SUSPICIOUS_EXTENSIONS, DECEPTIVE_NAME_FINDING, PE_FINDING,
      SPOOFED_ZIP_FINDING, ZIP_STRUCTURE_FINDING, DOS_FINDING, NESTED_EXECUTABLE_FINDING;
    var ext := Extension(name);
    FindingOpenings(ext, Join(Split(name, '.')[1..], '.'));
    ZipNotListed();
    var ps := SuspiciousPatterns(name, buf);
    if ext in SUSPICIOUS_EXTENSIONS {
      assert DangerousExtensionFinding(ext) in ps;
    }
  }

  lemma ZipNotListed()
    ensures "zip" !in SUSPICIOUS_EXTENSIONS
  {
  }
}
