// The logger's bounded buffer, its level filter and summary, the mapping
// from error kinds to error reports, and the attempt loop of `withRetry`.

module ErrorHandling {
  import opened Text

  // ---------------------------------------------------------------------
  // Log entries

  datatype LogLevel = Debug | Info | Warn | Error | Fatal

  /** The numeric value of the `LogLevel` enum. */
  function Severity(level: LogLevel): (n: nat)
    ensures n <= 4
    ensures level == Debug <==> n == 0
    ensures level == Fatal <==> n == 4
  {
    match level
    case Debug => 0
    case Info => 1
    case Warn => 2
    case Error => 3
    case Fatal => 4
  }

  /** A log entry: metadata, stack, session and browser fields are not modelled. */
  datatype LogEntry = LogEntry(level: LogLevel, message: string, timestamp: int, context: Option<string>)

  const MAX_LOGS := 1000

  /** `slice(-n)` applied when the list is longer than `n`: the newest `n` entries. */
  function Newest<X>(s: seq<X>, n: nat): (r: seq<X>)
    ensures |r| == Min(|s|, n)
    ensures r == s[|s| - |r|..]
  {
    if |s| <= n then s else s[|s| - n..]
  }

  /** Trimming after each push keeps what trimming once at the end would keep. */
  lemma NewestAppend<X>(s: seq<X>, x: X, n: nat)
    requires n >= 1
    ensures Newest(Newest(s, n) + [x], n) == Newest(s + [x], n)
  {
    if |s| > n {
      var t := s + [x];
      assert (s[|s| - n..] + [x])[1..] == t[|t| - n..];
    }
  }

  /** `logs.filter(log => log.level >= level)` */
  function AtLeast(logs: seq<LogEntry>, level: LogLevel): seq<LogEntry>
  {
    if |logs| == 0 then []
    else
      var rest := AtLeast(logs[..|logs| - 1], level);
      var e := logs[|logs| - 1];
      if Severity(e.level) >= Severity(level) then rest + [e] else rest
  }

  /** The filter keeps exactly the entries at or above the level; `Debug` keeps all. */
  lemma {:induction false} AtLeastMeans(logs: seq<LogEntry>, level: LogLevel)
    ensures forall e :: e in AtLeast(logs, level) <==> e in logs && Severity(e.level) >= Severity(level)
    ensures level == Debug ==> AtLeast(logs, level) == logs
  {
    if |logs| > 0 {
      var init := logs[..|logs| - 1];
      var e := logs[|logs| - 1];
      AtLeastMeans(init, level);
      assert logs == init + [e];
    }
  }

  /** The filter keeps the entries' order. */
  lemma {:induction false} AtLeastInOrder(logs: seq<LogEntry>, level: LogLevel)
    ensures Subsequence(AtLeast(logs, level), logs)
  {
    if |logs| > 0 {
      var init := logs[..|logs| - 1];
      var e := logs[|logs| - 1];
      AtLeastInOrder(init, level);
      var rest := AtLeast(init, level);
      if Severity(e.level) >= Severity(level) {
        assert (rest + [e])[..|rest|] == rest;
      } else {
        SubsequenceGrows(rest, init, e);
        assert init + [e] == logs;
      }
    }
  }

  // ---------------------------------------------------------------------
  // The summary

  /** What `getLogSummary` returns; `byLevel` has a key only for levels that occur. */
  datatype LogSummary = LogSummary(total: nat, byLevel: map<LogLevel, nat>, recentErrors: seq<LogEntry>)

  const MAX_RECENT_ERRORS := 10

  /** The `byLevel` record after counting every entry in order. */
  function Counts(logs: seq<LogEntry>): map<LogLevel, nat>
  {
    if |logs| == 0 then map[]
    else
      var m := Counts(logs[..|logs| - 1]);
      var level := logs[|logs| - 1].level;
      m[level := (if level in m then m[level] else 0) + 1]
  }

  /** A count read from `byLevel`, zero for a level that never occurred. */
  function CountOf(m: map<LogLevel, nat>, level: LogLevel): nat
  {
    if level in m then m[level] else 0
  }

  /** The sum of the five counts. */
  function Tally(m: map<LogLevel, nat>): nat
  {
    CountOf(m, Debug) + CountOf(m, Info) + CountOf(m, Warn) + CountOf(m, Error) + CountOf(m, Fatal)
  }

  /** One more entry adds one to its own level's count and leaves the others. */
  lemma CountsSnoc(logs: seq<LogEntry>, e: LogEntry, level: LogLevel)
    ensures CountOf(Counts(logs + [e]), level) == CountOf(Counts(logs), level) + (if e.level == level then 1 else 0)
    ensures level in Counts(logs + [e]) <==> level in Counts(logs) || e.level == level
  {
    assert (logs + [e])[..|logs|] == logs;
  }

  /** Each entry is counted once: the counts sum to the number of entries. */
  lemma {:induction false} CountsTally(logs: seq<LogEntry>)
    ensures Tally(Counts(logs)) == |logs|
  {
    if |logs| > 0 {
      var init := logs[..|logs| - 1];
      var e := logs[|logs| - 1];
      assert logs == init + [e];
      CountsTally(init);
      CountsSnoc(init, e, Debug);
      CountsSnoc(init, e, Info);
      CountsSnoc(init, e, Warn);
      CountsSnoc(init, e, Error);
      CountsSnoc(init, e, Fatal);
    }
  }

  /** Only levels that occur are keys of the counts. */
  lemma {:induction false} CountsKeys(logs: seq<LogEntry>)
    ensures forall level :: level in Counts(logs) <==> exists i | 0 <= i < |logs| :: logs[i].level == level
  {
    if |logs| > 0 {
      var init := logs[..|logs| - 1];
      var e := logs[|logs| - 1];
      assert logs == init + [e];
      CountsKeys(init);
      forall level
        ensures level in Counts(logs) <==> exists i | 0 <= i < |logs| :: logs[i].level == level
      {
        CountsSnoc(init, e, level);
        if exists i | 0 <= i < |init| :: init[i].level == level {
          var i :| 0 <= i < |init| && init[i].level == level;
          assert logs[i] == init[i];
        }
        if exists i | 0 <= i < |logs| :: logs[i].level == level {
          var i :| 0 <= i < |logs| && logs[i].level == level;
          if i < |init| {
            assert init[i] == logs[i];
          }
        }
      }
    }
  }

  /** The entries `getLogSummary` collects: the first ten at `Error` or above. */
  function FirstErrors(logs: seq<LogEntry>): seq<LogEntry>
  {
    var errors := AtLeast(logs, Error);
    errors[..Min(MAX_RECENT_ERRORS, |errors|)]
  }

  /** Entries ordered newest first. */
  predicate NewestFirstOrder(s: seq<LogEntry>)
  {
    forall i, j | 0 <= i < j < |s| :: s[i].timestamp >= s[j].timestamp
  }

  /** Put `x` after every entry at least as new, before the first older one. */
  function Insert(s: seq<LogEntry>, x: LogEntry): seq<LogEntry>
  {
    if |s| == 0 then [x]
    else if s[0].timestamp < x.timestamp then [x] + s
    else [s[0]] + Insert(s[1..], x)
  }

  /**
   * `sort((a, b) => b.timestamp - a.timestamp)`, a stable sort by descending
   * timestamp, written as insertion of each entry in turn.
   */
  function SortNewestFirst(s: seq<LogEntry>): seq<LogEntry>
  {
    if |s| == 0 then [] else Insert(SortNewestFirst(s[..|s| - 1]), s[|s| - 1])
  }

  /** Insertion adds exactly the one entry. */
  lemma {:induction false} InsertKeeps(s: seq<LogEntry>, x: LogEntry)
    ensures multiset(Insert(s, x)) == multiset(s) + multiset{x}
  {
    if |s| > 0 && s[0].timestamp >= x.timestamp {
      InsertKeeps(s[1..], x);
      assert s == [s[0]] + s[1..];
    }
  }

  /** Insertion into a newest-first sequence keeps it newest first. */
  lemma {:induction false} InsertSorted(s: seq<LogEntry>, x: LogEntry)
    requires NewestFirstOrder(s)
    ensures NewestFirstOrder(Insert(s, x))
  {
    if |s| > 0 && s[0].timestamp >= x.timestamp {
      InsertSorted(s[1..], x);
      InsertKeeps(s[1..], x);
      var r := Insert(s[1..], x);
      forall e | e in r
        ensures e.timestamp <= s[0].timestamp
      {
        assert e in multiset(r);
        if e != x {
          assert e in multiset(s[1..]);
          var k :| 0 <= k < |s[1..]| && s[1..][k] == e;
          assert s[k + 1] == e;
        }
      }
    }
  }

  /** The sort orders newest first and keeps every entry. */
  lemma {:induction false} SortNewestFirstMeans(s: seq<LogEntry>)
    ensures NewestFirstOrder(SortNewestFirst(s))
    ensures multiset(SortNewestFirst(s)) == multiset(s)
  {
    if |s| > 0 {
      SortNewestFirstMeans(s[..|s| - 1]);
      InsertSorted(SortNewestFirst(s[..|s| - 1]), s[|s| - 1]);
      InsertKeeps(SortNewestFirst(s[..|s| - 1]), s[|s| - 1]);
      assert s == s[..|s| - 1] + [s[|s| - 1]];
    }
  }

  /** `getLogSummary` */
  function Summary(logs: seq<LogEntry>): LogSummary
  {
    LogSummary(|logs|, Counts(logs), SortNewestFirst(FirstErrors(logs)))
  }

  /**
   * The counts sum to the total; the recent errors are at most ten entries
   * of the log at `Error` or above, newest first, and exactly the first ten
   * such entries (all of them when there are fewer).
   */
  lemma SummaryMeans(logs: seq<LogEntry>)
    ensures var s := Summary(logs);
      && s.total == |logs|
      && Tally(s.byLevel) == s.total
      && (forall level :: level in s.byLevel <==> exists i | 0 <= i < |logs| :: logs[i].level == level)
      && |s.recentErrors| == Min(MAX_RECENT_ERRORS, |AtLeast(logs, Error)|)
      && (forall e | e in s.recentErrors :: e in logs && Severity(e.level) >= Severity(Error))
      && NewestFirstOrder(s.recentErrors)
      && multiset(s.recentErrors) == multiset(AtLeast(logs, Error)[..|s.recentErrors|])
  {
    CountsTally(logs);
    CountsKeys(logs);
    AtLeastMeans(logs, Error);
    var first := FirstErrors(logs);
    SortNewestFirstMeans(first);
    var sorted := SortNewestFirst(first);
    forall e | e in sorted
      ensures e in logs && Severity(e.level) >= Severity(Error)
    {
      assert e in multiset(first);
      assert e in AtLeast(logs, Error);
    }
  }

  /** One step of the summary loop: count the entry, and collect it while fewer than ten errors are collected. */
  lemma SummaryStep(logs: seq<LogEntry>, i: nat)
    requires i < |logs|
    ensures var m := Counts(logs[..i]);
      Counts(logs[..i + 1]) == m[logs[i].level := (if logs[i].level in m then m[logs[i].level] else 0) + 1]
    ensures FirstErrors(logs[..i + 1])
            == if Severity(logs[i].level) >= Severity(Error) && |FirstErrors(logs[..i])| < MAX_RECENT_ERRORS
               then FirstErrors(logs[..i]) + [logs[i]]
               else FirstErrors(logs[..i])
  {
    assert logs[..i + 1][..i] == logs[..i];
  }

  // ---------------------------------------------------------------------
  // Error kinds and the report derived from them

  /** The error classes the logger tells apart; anything else is `OtherFailure`. */
  datatype Failure =
    | AnalysisFailure(message: string, code: string, statusCode: int, recovery: seq<string>)
    | NetworkFailure(message: string, statusCode: int, retryAfter: Option<int>)
    | ValidationFailure(message: string, field: string)
    | RateLimitFailure(message: string, seconds: int)
    | OtherFailure(name: string, message: string)

  /** The `name` each error class sets. */
  function Name(error: Failure): string
  {
    match error
    case AnalysisFailure(_, _, _, _) => "URLAnalysisError"
    case NetworkFailure(_, _, _) => "NetworkError"
    case ValidationFailure(_, _) => "ValidationError"
    case RateLimitFailure(_, _) => "RateLimitError"
    case OtherFailure(name, _) => name
  }

  /** `ErrorInfo` without stack and metadata. */
  datatype ErrorInfo = ErrorInfo(name: string, message: string, code: string, statusCode: int,
                                 context: string, timestamp: int, recovery: seq<string>)

  const REFRESH_HINT := "페이지를 새로고침해보세요"
  const CONNECTION_HINT := "인터넷 연결을 확인해주세요"
  const LATER_HINT := "잠시 후 다시 시도해보세요"

  /** A number as template literals print it, for integers. */
  function IntToString(n: int): string
  {
    if n < 0 then "-" + NatToString(-n) else NatToString(n)
  }

  /** `context || 'unknown'` */
  function ContextOrUnknown(context: Option<string>): (r: string)
    ensures r != ""
    ensures context.Some? && context.value != "" ==> r == context.value
  {
    if context.None? || context.value == "" then "unknown" else context.value
  }

  /** `extractErrorInfo` at time `now`. */
  function ExtractErrorInfo(error: Failure, context: Option<string>, now: int): (info: ErrorInfo)
    ensures info.name == Name(error) && info.message == error.message && info.timestamp == now
    ensures info.context == ContextOrUnknown(context)
    ensures |info.recovery| >= 1
    ensures error.ValidationFailure? ==> info.code == "VALIDATION_ERROR" && info.statusCode == 400
    ensures error.RateLimitFailure? ==> info.code == "RATE_LIMIT_ERROR" && info.statusCode == 429
    ensures error.NetworkFailure? ==>
              info.code == "NETWORK_ERROR" && info.statusCode == error.statusCode
              && 2 <= |info.recovery| <= 3 && info.recovery[..2] == [CONNECTION_HINT, LATER_HINT]
              && (|info.recovery| == 3 <==> error.retryAfter.Some? && error.retryAfter.value != 0)
    ensures error.AnalysisFailure? ==>
              info.code == error.code && info.statusCode == error.statusCode
              && info.recovery == (if error.recovery == [] then [REFRESH_HINT] else error.recovery)
    ensures error.OtherFailure? ==> info.code == "UNKNOWN_ERROR" && info.statusCode == 500 && info.recovery == [REFRESH_HINT]
  {
    var (code, statusCode, recovery) :=
      match error
      case AnalysisFailure(_, code, statusCode, recovery) =>
        (code, statusCode, if |recovery| > 0 then recovery else [REFRESH_HINT])
      case NetworkFailure(_, statusCode, retryAfter) =>
        (if retryAfter.Some? && retryAfter.value != 0
         then ("NETWORK_ERROR", statusCode, [CONNECTION_HINT, LATER_HINT, IntToString(retryAfter.value) + "초 후 다시 시도하세요"])
         else ("NETWORK_ERROR", statusCode, [CONNECTION_HINT, LATER_HINT]))
      case ValidationFailure(_, field) =>
        ("VALIDATION_ERROR", 400, [field + " 필드를 다시 확인해주세요"])
      case RateLimitFailure(_, retryAfter) =>
        ("RATE_LIMIT_ERROR", 429, [IntToString(retryAfter) + "초 후 다시 시도해주세요"])
      case OtherFailure(_, _) =>
        ("UNKNOWN_ERROR", 500, [REFRESH_HINT]);
    ErrorInfo(Name(error), error.message, code, statusCode, ContextOrUnknown(context), now, recovery)
  }

  // ---------------------------------------------------------------------
  // The logger

  /**
   * `Logger`. Besides the retained `logs`, the ghost `accepted` records every
   * entry that passed the level filter since the last clear; the buffer is
   * always the newest `MAX_LOGS` of them.
   */
  class Logger {
    var level: LogLevel
    var logs: seq<LogEntry>
    ghost var accepted: seq<LogEntry>

    ghost predicate Valid()
      reads this
    {
      logs == Newest(accepted, MAX_LOGS)
    }

    constructor()
      ensures Valid() && level == Info && logs == [] && accepted == []
    {
      level := Info;
      logs := [];
      accepted := [];
    }

    method SetLevel(newLevel: LogLevel)
      modifies this
      ensures level == newLevel && logs == old(logs) && accepted == old(accepted)
    {
      level := newLevel;
    }

    /**
     * `log`: an entry below the configured level is dropped; otherwise it is
     * appended and the buffer trimmed to the newest `MAX_LOGS` entries.
     */
    method Log(entryLevel: LogLevel, message: string, context: Option<string>, now: int)
      requires Valid()
      modifies this
      ensures Valid() && level == old(level) && |logs| <= MAX_LOGS
      ensures Severity(entryLevel) < Severity(level) ==> logs == old(logs) && accepted == old(accepted)
      ensures Severity(entryLevel) >= Severity(level) ==>
                var entry := LogEntry(entryLevel, message, now, context);
                accepted == old(accepted) + [entry] && logs == Newest(old(logs) + [entry], MAX_LOGS)
    {
      if Severity(entryLevel) < Severity(level) {
        return;
      }
      var entry := LogEntry(entryLevel, message, now, context);
      NewestAppend(accepted, entry, MAX_LOGS);
      accepted := accepted + [entry];
      logs := logs + [entry];
      if |logs| > MAX_LOGS {
        logs := logs[|logs| - MAX_LOGS..];
      }
    }

    /** `logError`: the error's report is logged at `Error` with its message and context. */
    method LogError(error: Failure, context: Option<string>, now: int)
      requires Valid()
      modifies this
      ensures Valid() && level == old(level)
      ensures var info := ExtractErrorInfo(error, context, now);
        var entry := LogEntry(Error, info.message, now, Some(info.context));
        if Severity(level) <= Severity(Error)
        then accepted == old(accepted) + [entry] && logs == Newest(old(logs) + [entry], MAX_LOGS)
        else logs == old(logs) && accepted == old(accepted)
    {
      var info := ExtractErrorInfo(error, context, now);
      Log(Error, info.message, Some(info.context), now);
    }

    /** `getLogs`: every entry, or those at or above the given level. */
    method GetLogs(minLevel: Option<LogLevel>) returns (r: seq<LogEntry>)
      ensures minLevel.None? ==> r == logs
      ensures minLevel.Some? ==> r == AtLeast(logs, minLevel.value)
    {
      if minLevel.Some? {
        r := AtLeast(logs, minLevel.value);
      } else {
        r := logs;
      }
    }

    method ClearLogs()
      modifies this
      ensures Valid() && logs == [] && accepted == [] && level == old(level)
    {
      logs := [];
      accepted := [];
    }

    /** `getLogSummary`: count by level and collect the first ten errors in one pass, then sort them. */
    method GetLogSummary() returns (summary: LogSummary)
      ensures summary == Summary(logs)
    {
      var byLevel: map<LogLevel, nat> := map[];
      var recent: seq<LogEntry> := [];
      for i := 0 to |logs|
        invariant byLevel == Counts(logs[..i])
        invariant recent == FirstErrors(logs[..i])
      {
        hide Counts, FirstErrors;
        SummaryStep(logs, i);
        var entry := logs[i];
        byLevel := byLevel[entry.level := (if entry.level in byLevel then byLevel[entry.level] else 0) + 1];
        if Severity(entry.level) >= Severity(Error) && |recent| < MAX_RECENT_ERRORS {
          recent := recent + [entry];
        }
      }
      assert logs[..|logs|] == logs;
      summary := LogSummary(|logs|, byLevel, SortNewestFirst(recent));
    }
  }

  // ---------------------------------------------------------------------
  // withRetry

  /** One call of the retried function: a value, or a thrown error. */
  datatype Attempt<T> = Success(value: T) | Thrown(error: Failure)

  /** `new Error('Unexpected error in retry logic')` */
  const UNEXPECTED_RETRY_ERROR := OtherFailure("Error", "Unexpected error in retry logic")

  /**
   * The outcome and the number of calls of the attempt loop from attempt
   * `attempt` on, when `last` is the error of the previous attempt; `fn(k)` is
   * what the `k`-th call does.
   */
  function Retried<T>(fn: nat -> Attempt<T>, maxRetries: int, attempt: nat, last: Option<Failure>): (Attempt<T>, nat)
    decreases maxRetries - attempt
  {
    if attempt > maxRetries then
      (Thrown(if last.Some? then last.value else UNEXPECTED_RETRY_ERROR), 0)
    else
      match fn(attempt)
      case Success(v) => (Success(v), 1)
      case Thrown(e) =>
        var (outcome, calls) := Retried(fn, maxRetries, attempt + 1, Some(e));
        (outcome, calls + 1)
  }

  /**
   * `withRetry` without its delays and log lines: call `fn` for attempts
   * `1..maxRetries`, return the first success, else rethrow the last error.
   */
  method WithRetry<T>(fn: nat -> Attempt<T>, maxRetries: int) returns (outcome: Attempt<T>, calls: nat)
    ensures (outcome, calls) == Retried(fn, maxRetries, 1, None)
  {
    var lastError: Option<Failure> := None;
    var attempt := 1;
    calls := 0;
    while attempt <= maxRetries
      invariant 1 <= attempt && calls == attempt - 1
      invariant attempt > 1 ==> lastError.Some?
      invariant Retried(fn, maxRetries, 1, None) == (var r := Retried(fn, maxRetries, attempt, lastError); (r.0, r.1 + calls))
      decreases maxRetries - attempt
    {
      calls := calls + 1;
      var result := fn(attempt);
      if result.Success? {
        return Success(result.value), calls;
      }
      lastError := Some(result.error);
      attempt := attempt + 1;
    }
    outcome := Thrown(if lastError.Some? then lastError.value else UNEXPECTED_RETRY_ERROR);
  }

  /** The first attempt in `from..to` that succeeds, if any. */
  predicate FailsThrough<T>(fn: nat -> Attempt<T>, from: nat, to: int)
  {
    forall k: nat | from <= k <= to :: fn(k).Thrown?
  }

  /**
   * From attempt `attempt` on: if some attempt up to `maxRetries` succeeds,
   * the first one's value is returned after exactly that many calls;
   * otherwise the error of attempt `maxRetries` is rethrown (or the previous
   * one when no attempt is left), after one call per remaining attempt.
   */
  lemma {:induction false} RetriedMeans<T>(fn: nat -> Attempt<T>, maxRetries: int, attempt: nat, last: Option<Failure>)
    ensures var (outcome, calls) := Retried(fn, maxRetries, attempt, last);
      && calls <= Max(0, maxRetries - attempt + 1)
      && (outcome.Success? <==> exists k: nat | attempt <= k <= maxRetries :: fn(k).Success?)
      && (outcome.Success? ==>
            var k := attempt + calls - 1;
            attempt <= k <= maxRetries && fn(k) == outcome && FailsThrough(fn, attempt, k - 1))
      && (outcome.Thrown? && attempt <= maxRetries ==>
            calls == maxRetries - attempt + 1 && outcome == fn(maxRetries))
      && (attempt > maxRetries ==>
            calls == 0 && outcome == Thrown(if last.Some? then last.value else UNEXPECTED_RETRY_ERROR))
    decreases maxRetries - attempt
  {
    if attempt <= maxRetries {
      match fn(attempt)
      case Success(v) =>
      case Thrown(e) =>
        RetriedMeans(fn, maxRetries, attempt + 1, Some(e));
        var (outcome, calls) := Retried(fn, maxRetries, attempt + 1, Some(e));
        if outcome.Success? {
          var k := attempt + calls;
          assert FailsThrough(fn, attempt, k - 1) by {
            forall j: nat | attempt <= j <= k - 1
              ensures fn(j).Thrown?
            {
              if j > attempt {
                assert attempt + 1 <= j <= k - 1;
              }
            }
          }
        } else {
          assert forall k: nat | attempt <= k <= maxRetries :: fn(k).Thrown? by {
            forall k: nat | attempt <= k <= maxRetries
              ensures fn(k).Thrown?
            {
              if k > attempt {
                assert attempt + 1 <= k <= maxRetries;
              }
            }
          }
        }
    }
  }

  /**
   * `withRetry(fn, n)` calls `fn` at most `n` times; it returns the first
   * success; when every attempt fails it rethrows the error of the last
   * one after `n` calls; with `n < 1` it calls nothing and throws the
   * unexpected-error error.
   */
  lemma WithRetryMeans<T>(fn: nat -> Attempt<T>, maxRetries: int)
    ensures var (outcome, calls) := Retried(fn, maxRetries, 1, None);
      && calls <= Max(0, maxRetries)
      && (outcome.Success? <==> exists k: nat | 1 <= k <= maxRetries :: fn(k).Success?)
      && (outcome.Success? ==> 1 <= calls && fn(calls) == outcome && FailsThrough(fn, 1, calls - 1))
      && (outcome.Thrown? && maxRetries >= 1 ==> calls == maxRetries && outcome == fn(maxRetries))
      && (maxRetries < 1 ==> calls == 0 && outcome == Thrown(UNEXPECTED_RETRY_ERROR))
  {
    RetriedMeans(fn, maxRetries, 1, None);
  }
}
