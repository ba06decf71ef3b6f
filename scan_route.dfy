// The archive-entry loop and the POST handler of the file-scan route: one
// scan per uploaded file, and for an archive extension one scan per
// non-directory entry. Extraction, whether its libraries load, the CP949
// filename recovery, hashing and the clock are parameters.

module ScanRoute {
  import opened Text
  import opened FileScanner
  import opened FileVerdict

  /** An archive entry as the extractor lists it; `data` is `None` when reading it fails. */
  datatype ArchiveEntry = ArchiveEntry(entryName: string, isDirectory: bool, data: Option<seq<byte>>)

  /** An entry that is scanned: not a directory, and its data can be read. */
  predicate Scannable(e: ArchiveEntry)
  {
    !e.isDirectory && e.data.Some?
  }

  /** A name that looks mis-decoded: a replacement character or a code point in U+0080..U+00FF. */
  predicate Garbled(name: string)
  {
    exists i | 0 <= i < |name| :: name[i] == '\U{FFFD}' || '\U{80}' <= name[i] <= '\U{FF}'
  }

  /** The name an entry is scanned under: re-decoded as CP949 when it looks garbled. */
  function EntryName(name: string, cp949: string -> string): (n: string)
    ensures !Garbled(name) ==> n == name
  {
    if Garbled(name) then cp949(name) else name
  }

  /** The entries that are scanned, in entry order. */
  function Files(entries: seq<ArchiveEntry>): (fs: seq<ArchiveEntry>)
    ensures |fs| <= |entries|
    ensures forall k | 0 <= k < |fs| :: Scannable(fs[k])
  {
    if |entries| == 0 then []
    else
      var last := entries[|entries| - 1];
      Files(entries[..|entries| - 1]) + (if Scannable(last) then [last] else [])
  }

  /** An entry belongs to `Files` exactly when it is a scannable entry of the archive. */
  lemma {:induction false} FilesMembers(entries: seq<ArchiveEntry>, e: ArchiveEntry)
    ensures e in Files(entries) <==> e in entries && Scannable(e)
  {
    if |entries| > 0 {
      var init := entries[..|entries| - 1];
      FilesMembers(init, e);
      assert entries == init + [entries[|entries| - 1]];
    }
  }

  /** The scan of one entry, under its recovered name. */
  function EntryScan(e: ArchiveEntry, cp949: string -> string, hashOf: seq<byte> -> Digests, scanTime: nat): FileScanResult
    requires Scannable(e)
  {
    hide ScanResultFor;
    ScanResultFor(EntryName(e.entryName, cp949), e.data.value, hashOf(e.data.value), scanTime)
  }

  /** What `scanArchiveContents` collects from a list of entries. */
  function ArchiveResults(entries: seq<ArchiveEntry>, cp949: string -> string, hashOf: seq<byte> -> Digests, scanTime: nat)
    : seq<FileScanResult>
  {
    hide EntryScan;
    if |entries| == 0 then []
    else
      var last := entries[|entries| - 1];
      ArchiveResults(entries[..|entries| - 1], cp949, hashOf, scanTime)
      + (if Scannable(last) then [EntryScan(last, cp949, hashOf, scanTime)] else [])
  }

  /** One result per scannable entry, in entry order. */
  lemma {:induction false} ArchiveResultsAreScans(entries: seq<ArchiveEntry>, cp949: string -> string,
                                                  hashOf: seq<byte> -> Digests, scanTime: nat)
    ensures hide ScanResultFor; var rs, fs := ArchiveResults(entries, cp949, hashOf, scanTime), Files(entries);
      |rs| == |fs| && forall k | 0 <= k < |rs| :: rs[k] == EntryScan(fs[k], cp949, hashOf, scanTime)
  {
    hide EntryScan;
    if |entries| > 0 {
      ArchiveResultsAreScans(entries[..|entries| - 1], cp949, hashOf, scanTime);
    }
  }

  /** `scanArchiveContents`: an archive that cannot be opened gives no results. */
  function ArchiveContents(archive: Option<seq<ArchiveEntry>>, cp949: string -> string, hashOf: seq<byte> -> Digests,
                           scanTime: nat): seq<FileScanResult>
  {
    match archive
    case None => []
    case Some(entries) => ArchiveResults(entries, cp949, hashOf, scanTime)
  }

  /** `scanArchiveContents`, walking the entries the extractor returns. */
  method ScanArchiveContents(archive: Option<seq<ArchiveEntry>>, cp949: string -> string,
                             hashOf: seq<byte> -> Digests, scanTime: nat)
    returns (results: seq<FileScanResult>)
    ensures results == ArchiveContents(archive, cp949, hashOf, scanTime)
  {
    hide ScanResultFor;
    results := [];
    if archive.None? {
      return;
    }
    var entries := archive.value;
    for i := 0 to |entries|
      invariant results == ArchiveResults(entries[..i], cp949, hashOf, scanTime)
    {
      var entry := entries[i];
      if !entry.isDirectory {
        var filename := entry.entryName;
        if Garbled(filename) {
          filename := cp949(filename);
        }
        if entry.data.Some? {
          var entryData := entry.data.value;
          var result := ScanFile(filename, entryData, hashOf, scanTime);
          results := results + [result];
        }
      }
      assert entries[..i + 1][..i] == entries[..i];
    }
    assert entries[..|entries|] == entries;
  }

  // ---------------------------------------------------------------------
  // POST

  const NO_FILES_ERROR := "파일이 업로드되지 않았습니다"
  const SCAN_ERROR := "파일 스캔 중 오류가 발생했습니다"
  /** The finding added to an archive whose contents could not be scanned at all. */
  const ARCHIVE_SCAN_FAILED := "압축 파일 스캔 실패"

  /** An uploaded file; `data` is `None` when its bytes cannot be read. */
  datatype Upload = Upload(name: string, data: Option<seq<byte>>)

  datatype ScanResponse = Scanned(results: seq<FileScanResult>) | Failed(status: nat, error: string)

  /**
   * The result for one readable upload as the route builds it: the scan,
   * with the archive contents attached afterwards for an archive. The
   * recommendations were computed before the contents were attached, so the
   * archive alarm can never be among them (see `AlarmMissedAsWritten`).
   * `extractorLoads` says whether the ZIP and encoding libraries load; when
   * they do not, `scanArchiveContents` throws before its own error handling
   * and the route only appends `ARCHIVE_SCAN_FAILED` to the findings,
   * leaving score, level and recommendations as they were.
   */
  function UploadResultAsWritten(name: string, data: seq<byte>, extractorLoads: bool,
                                 unzip: seq<byte> -> Option<seq<ArchiveEntry>>, cp949: string -> string,
                                 hashOf: seq<byte> -> Digests, scanTime: nat): FileScanResult
  {
    hide ScanResultFor, ArchiveContents;
    var r := ScanResultFor(name, data, hashOf(data), scanTime);
    if !r.isArchive then r
    else if extractorLoads then r.(archiveContents := Some(ArchiveContents(unzip(data), cp949, hashOf, scanTime)))
    else r.(suspiciousPatterns := r.suspiciousPatterns + [ARCHIVE_SCAN_FAILED])
  }

  /**
   * The result for one readable upload, with the recommendations computed
   * once the archive contents are attached, as the alarm line evidently
   * intends.
   */
  function UploadResult(name: string, data: seq<byte>, extractorLoads: bool,
                        unzip: seq<byte> -> Option<seq<ArchiveEntry>>, cp949: string -> string,
                        hashOf: seq<byte> -> Digests, scanTime: nat): FileScanResult
  {
    hide ScanResultFor, ArchiveContents, Advice;
    var r := UploadResultAsWritten(name, data, extractorLoads, unzip, cp949, hashOf, scanTime);
    r.(recommendations := Advice(r))
  }

  /** `scan.exe` matches the `^scan…\.exe$` pattern and has extension `exe`. */
  lemma ScanExeIsDeceptive()
    ensures SuspiciousName("scan.exe") && Extension("scan.exe") == "exe"
  {
    hide Extension, Test;
    ScanNameMatches("scan.exe");
    assert NAME_PATTERNS[4] == Leading("scan");
    ScanExeExtension();
  }

  lemma ScanExeExtension()
    ensures Extension("scan.exe") == "exe"
  {
    hide RawExtension;
    ExtensionOfName("scan", "exe");
    assert "scan" + "." + "exe" == "scan.exe";
    var e := ToLower("exe");
    assert e[0] == 'e' && e[1] == 'x' && e[2] == 'e';
  }

  /** `scan.exe` is not re-decoded: all its characters are ASCII. */
  lemma ScanExeNotGarbled()
    ensures !Garbled("scan.exe")
  {
  }

  /**
   * An archive whose only entry is `scan.exe` holds a result judged malware,
   * yet the result the route returns for it carries no archive alarm.
   */
  lemma AlarmMissedAsWritten(name: string, data: seq<byte>, unzip: seq<byte> -> Option<seq<ArchiveEntry>>,
                             cp949: string -> string, hashOf: seq<byte> -> Digests, scanTime: nat, inner: seq<byte>)
    requires Extension(name) in ARCHIVE_EXTENSIONS
    requires unzip(data) == Some([ArchiveEntry("scan.exe", false, Some(inner))])
    ensures var r := UploadResultAsWritten(name, data, true, unzip, cp949, hashOf, scanTime);
      r.isArchive && ArchiveHasMalware(r.archiveContents) && ARCHIVE_ALARM !in r.recommendations
  {
    hide Extension, SuspiciousName, SuspiciousPatterns, SUSPICIOUS_EXTENSIONS, ARCHIVE_EXTENSIONS, DetailsFor,
      GuessMimeType, MalwareDetected, Advice, RawScore, LevelOf, Min;
    var r := UploadResultAsWritten(name, data, true, unzip, cp949, hashOf, scanTime);
    var entries := [ArchiveEntry("scan.exe", false, Some(inner))];
    assert ScanResultFor(name, data, hashOf(data), scanTime).isArchive;
    assert entries[..|entries| - 1] == [];
    var s := EntryScan(entries[0], cp949, hashOf, scanTime);
    assert ArchiveResults(entries, cp949, hashOf, scanTime) == [s];
    assert r.archiveContents == Some([s]);
    ScanExeIsDeceptive();
    ScanExeNotGarbled();
    assert s == ScanResultFor("scan.exe", inner, hashOf(inner), scanTime);
    DeceptiveNameScan("scan.exe", inner, hashOf(inner), scanTime);
    assert r.archiveContents.value[0].malwareDetected;
    NoArchiveAlarm(name, data, hashOf(data), scanTime);
    assert r.recommendations == ScanResultFor(name, data, hashOf(data), scanTime).recommendations;
  }

  /** With the advice computed last, the archive alarm appears exactly when an entry is judged malware. */
  lemma AlarmRaised(name: string, data: seq<byte>, extractorLoads: bool, unzip: seq<byte> -> Option<seq<ArchiveEntry>>,
                    cp949: string -> string, hashOf: seq<byte> -> Digests, scanTime: nat)
    ensures var r := UploadResult(name, data, extractorLoads, unzip, cp949, hashOf, scanTime);
      ARCHIVE_ALARM in r.recommendations <==> r.isArchive && ArchiveHasMalware(r.archiveContents)
  {
    hide ScanResultFor, ArchiveContents, Advice, UploadResultAsWritten;
    AdviceMeans(UploadResultAsWritten(name, data, extractorLoads, unzip, cp949, hashOf, scanTime));
  }

  predicate AllReadable(files: seq<Upload>)
  {
    forall i | 0 <= i < |files| :: files[i].data.Some?
  }

  function UploadResults(files: seq<Upload>, extractorLoads: bool, unzip: seq<byte> -> Option<seq<ArchiveEntry>>,
                         cp949: string -> string, hashOf: seq<byte> -> Digests, scanTime: nat): seq<FileScanResult>
    requires AllReadable(files)
  {
    hide UploadResultAsWritten;
    if |files| == 0 then []
    else
      var last := files[|files| - 1];
      UploadResults(files[..|files| - 1], extractorLoads, unzip, cp949, hashOf, scanTime)
      + [UploadResultAsWritten(last.name, last.data.value, extractorLoads, unzip, cp949, hashOf, scanTime)]
  }

  /**
   * The response of `POST`: 500 when the form cannot be read or a file's
   * bytes cannot be read, 400 when no file was sent, otherwise one result
   * per file.
   */
  function PostResponse(form: Option<seq<Upload>>, extractorLoads: bool, unzip: seq<byte> -> Option<seq<ArchiveEntry>>,
                        cp949: string -> string, hashOf: seq<byte> -> Digests, scanTime: nat): ScanResponse
  {
    hide UploadResults;
    match form
    case None => Failed(500, SCAN_ERROR)
    case Some(files) =>
      if |files| == 0 then Failed(400, NO_FILES_ERROR)
      else if !AllReadable(files) then Failed(500, SCAN_ERROR)
      else Scanned(UploadResults(files, extractorLoads, unzip, cp949, hashOf, scanTime))
  }

  /** `POST /api/scan-file`. */
  method Post(form: Option<seq<Upload>>, extractorLoads: bool, unzip: seq<byte> -> Option<seq<ArchiveEntry>>,
              cp949: string -> string, hashOf: seq<byte> -> Digests, scanTime: nat)
    returns (response: ScanResponse)
    ensures response == PostResponse(form, extractorLoads, unzip, cp949, hashOf, scanTime)
  {
    hide ScanResultFor, ArchiveContents, Advice;
    if form.None? {
      return Failed(500, SCAN_ERROR);
    }
    var files := form.value;
    if |files| == 0 {
      return Failed(400, NO_FILES_ERROR);
    }
    var results: seq<FileScanResult> := [];
    for i := 0 to |files|
      invariant AllReadable(files[..i])
      invariant results == UploadResults(files[..i], extractorLoads, unzip, cp949, hashOf, scanTime)
    {
      var file := files[i];
      if file.data.None? {
        return Failed(500, SCAN_ERROR);
      }
      var buffer := file.data.value;
      var result := ScanFile(file.name, buffer, hashOf, scanTime);
      if result.isArchive {
        if extractorLoads {
          var contents := ScanArchiveContents(unzip(buffer), cp949, hashOf, scanTime);
          result := result.(archiveContents := Some(contents));
        } else {
          result := result.(suspiciousPatterns := result.suspiciousPatterns + [ARCHIVE_SCAN_FAILED]);
        }
      }
      results := results + [result];
      assert files[..i + 1][..i] == files[..i];
    }
    assert files[..|files|] == files;
    return Scanned(results);
  }

  /** One result per uploaded file, in upload order. */
  lemma {:induction false} UploadResultsAreScans(files: seq<Upload>, extractorLoads: bool,
                                                 unzip: seq<byte> -> Option<seq<ArchiveEntry>>, cp949: string -> string,
                                                 hashOf: seq<byte> -> Digests, scanTime: nat)
    requires AllReadable(files)
    ensures hide UploadResultAsWritten; var rs := UploadResults(files, extractorLoads, unzip, cp949, hashOf, scanTime);
      |rs| == |files|
      && forall i | 0 <= i < |rs| ::
           rs[i] == UploadResultAsWritten(files[i].name, files[i].data.value, extractorLoads, unzip, cp949, hashOf, scanTime)
  {
    hide UploadResultAsWritten;
    if |files| > 0 {
      UploadResultsAreScans(files[..|files| - 1], extractorLoads, unzip, cp949, hashOf, scanTime);
    }
  }

  /**
   * `POST` answers 500 when the form or a file cannot be read, 400 when no
   * file was sent, and otherwise one result per file, in order.
   */
  lemma PostOutcome(form: Option<seq<Upload>>, extractorLoads: bool, unzip: seq<byte> -> Option<seq<ArchiveEntry>>,
                    cp949: string -> string, hashOf: seq<byte> -> Digests, scanTime: nat)
    ensures hide UploadResultAsWritten; var resp := PostResponse(form, extractorLoads, unzip, cp949, hashOf, scanTime);
      && (resp == Failed(400, NO_FILES_ERROR) <==> form.Some? && |form.value| == 0)
      && (resp == Failed(500, SCAN_ERROR) <==> form.None? || (|form.value| > 0 && !AllReadable(form.value)))
      && (resp.Scanned? ==>
            var files := form.value;
            |resp.results| == |files| > 0
            && forall i | 0 <= i < |files| ::
                 resp.results[i]
                 == UploadResultAsWritten(files[i].name, files[i].data.value, extractorLoads, unzip, cp949, hashOf, scanTime))
  {
    hide UploadResultAsWritten;
    if form.Some? && |form.value| > 0 && AllReadable(form.value) {
      UploadResultsAreScans(form.value, extractorLoads, unzip, cp949, hashOf, scanTime);
    }
  }

  /**
   * What one result holds: the file's own scan, unchanged but for the
   * archive contents and the failure finding; so its recommendations are
   * those for the file alone and never include the archive alarm. An
   * archive gets its contents when the extractor loads (none when the
   * archive cannot be opened), and otherwise the failure finding.
   */
  lemma UploadResultMeans(name: string, data: seq<byte>, extractorLoads: bool,
                          unzip: seq<byte> -> Option<seq<ArchiveEntry>>, cp949: string -> string,
                          hashOf: seq<byte> -> Digests, scanTime: nat)
    ensures var s := ScanResultFor(name, data, hashOf(data), scanTime);
      var r := UploadResultAsWritten(name, data, extractorLoads, unzip, cp949, hashOf, scanTime);
      && r.(archiveContents := None, suspiciousPatterns := s.suspiciousPatterns) == s
      && r.recommendations == Advice(UnadvisedResult(name, data, hashOf(data), scanTime))
      && ARCHIVE_ALARM !in r.recommendations
      && (r.isArchive <==> Extension(name) in ARCHIVE_EXTENSIONS)
      && (r.archiveContents.Some? <==> r.isArchive && extractorLoads)
      && (r.isArchive && extractorLoads ==> r.archiveContents == Some(ArchiveContents(unzip(data), cp949, hashOf, scanTime)))
      && (r.isArchive && extractorLoads && unzip(data).None? ==> r.archiveContents == Some([]))
      && r.suspiciousPatterns == s.suspiciousPatterns + (if r.isArchive && !extractorLoads then [ARCHIVE_SCAN_FAILED] else [])
  {
    hide Extension, SuspiciousPatterns, SUSPICIOUS_EXTENSIONS, ARCHIVE_EXTENSIONS, DetailsFor, GuessMimeType,
      MalwareDetected, Advice, RawScore, LevelOf, Min, ArchiveResults;
    NoArchiveAlarm(name, data, hashOf(data), scanTime);
  }
}
