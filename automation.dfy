/** The cycle driver: the list of features, the run statistics, one cycle that
    runs every feature in order and keeps the tallies, the gated cycle summary
    and daily report, one step of the endless run loop, and the administrative
    operations on the feature list. What each feature's `execute` yields, the
    clock readings and the cooldown draws are parameters. */
module Automation {
  import opened Outcomes
  import opened Text
  import opened Events
  import opened Notifier
  import opened Feature
  import Retry
  import Cooldown
  import Random
  import SwapFeatures
  import LiquidityFeatures
  import UploadFeatures

  // ---------------------------------------------------------------------------
  // Features and statistics

  /** A feature of the list, described by its class and constructor arguments. */
  datatype FeatureEntry =
    | UploadEntry
    | SwapEntry(dexType: string, executionCount: int)
    | LiquidityEntry(dexType: string, executionCount: int)

  /** The `featureName` of a feature: every swap feature is "Token Swap" and
      every liquidity feature "Add Liquidity", whatever their DEX. */
  function FeatureName(f: FeatureEntry): string
  {
    match f
    case UploadEntry => UploadFeatures.UploadFeatureName
    case SwapEntry(_, _) => SwapFeatures.SwapFeatureName
    case LiquidityEntry(_, _) => LiquidityFeatures.LiquidityFeatureName
  }

  /** The list the constructor builds: upload, a Jaine swap and a Jaine
      liquidity feature of 3 repetitions, and a Zer0 swap of 2. */
  const DefaultFeatures: seq<FeatureEntry> :=
    [UploadEntry, SwapEntry("jaine", 3), LiquidityEntry("jaine", 3), SwapEntry("zer0", 2)]

  /** `stats`; `features` holds the per-name success counts in insertion order,
      the times are milliseconds since the epoch. */
  datatype Stats = Stats(totalRuns: nat, successful: nat, failed: nat, features: seq<(string, nat)>,
                         startTime: int, lastRunTime: Option<int>)

  /** `features[name] = (features[name] || 0) + 1`: an existing name keeps its
      place, a new one is appended. */
  function Bump(counts: seq<(string, nat)>, name: string): seq<(string, nat)>
  {
    if counts == [] then [(name, 1)]
    else if counts[0].0 == name then [(name, counts[0].1 + 1)] + counts[1..]
    else [counts[0]] + Bump(counts[1..], name)
  }

  /** The names of an association list, in order. */
  function Names(counts: seq<(string, nat)>): (ns: seq<string>)
    ensures |ns| == |counts|
  {
    if counts == [] then [] else [counts[0].0] + Names(counts[1..])
  }

  /** `features[name] || 0`. */
  function CountOf(counts: seq<(string, nat)>, name: string): nat
  {
    if counts == [] then 0 else if counts[0].0 == name then counts[0].1 else CountOf(counts[1..], name)
  }

  /** Bumping a name adds one to its count and leaves every other count alone;
      the names keep their order, and a new name goes last. */
  lemma {:induction false} BumpCounts(counts: seq<(string, nat)>, name: string, other: string)
    ensures CountOf(Bump(counts, name), other) == CountOf(counts, other) + (if other == name then 1 else 0)
    ensures Names(Bump(counts, name)) == if name in Names(counts) then Names(counts) else Names(counts) + [name]
  {
    if counts != [] && counts[0].0 != name {
      BumpCounts(counts[1..], name, other);
      assert Names(counts) == [counts[0].0] + Names(counts[1..]);
      var rest := Bump(counts[1..], name);
      assert Bump(counts, name) == [counts[0]] + rest;
      assert ([counts[0]] + rest)[1..] == rest;
    } else if counts != [] {
      var b := Bump(counts, name);
      assert b[1..] == counts[1..];
    }
  }

  // ---------------------------------------------------------------------------
  // One cycle

  /** What `feature.execute(...)` did: returned its result record, threw an
      error with a message, or threw `null`/`undefined`. */
  datatype FeatureRun = Returned(result: FeatureResult) | Threw(message: string) | ThrewNull

  /** The readings of `Date.now()` in a cycle: for `lastRunTime`, the start and
      end of the feature loop, and the daily-report test. */
  datatype CycleTimes = CycleTimes(lastRun: int, cycleStart: int, cycleEnd: int, reportCheck: int)

  /** The result recorded for a feature: its own record, or `{success: false,
      feature, error}` (no wallet) for a throw. A feature that threw `null`
      is never recorded, since the cycle stops before it (see `Cycle`); here
      it reads as a throw with an empty message. */
  function Recorded(name: string, run: FeatureRun): (r: FeatureResult)
    ensures r.Succeeded? <==> run.Returned? && run.result.Succeeded?
    ensures run.Threw? ==> r.feature == name && r.error == run.message
  {
    if run.Returned? then run.result else Failed(name, "", if run.Threw? then run.message else "")
  }

  /** Where the loop over n features stops: at the first feature that threw
      `null` (its catch block reads `error.message` and throws again), or n. */
  function Reached(runs: nat -> FeatureRun, lo: nat, n: nat): (k: nat)
    requires lo <= n
    ensures lo <= k <= n
    ensures forall j :: lo <= j < k ==> !runs(j).ThrewNull?
    ensures k < n ==> runs(k).ThrewNull?
    decreases n - lo
  {
    if lo == n then n else if runs(lo).ThrewNull? then lo else Reached(runs, lo + 1, n)
  }

  /** The loop stops at i when none before i threw `null` and i is the end
      of the list or a feature that threw `null`. */
  lemma ReachedAt(runs: nat -> FeatureRun, n: nat, i: nat)
    requires i <= n
    requires forall j :: 0 <= j < i ==> !runs(j).ThrewNull?
    requires i < n ==> runs(i).ThrewNull?
    ensures Reached(runs, 0, n) == i
  {
  }

  /** The tally after one feature: a success bumps `successful` and the
      feature's own name, anything else bumps `failed`. */
  function Tally(s: Stats, name: string, run: FeatureRun): Stats
  {
    if run.Returned? && run.result.Succeeded? then s.(successful := s.successful + 1, features := Bump(s.features, name))
    else s.(failed := s.failed + 1)
  }

  /** The statistics after the first k features of the loop. */
  function Tallied(s: Stats, fs: seq<FeatureEntry>, runs: nat -> FeatureRun, k: nat): Stats
    requires k <= |fs|
  {
    if k == 0 then s else Tally(Tallied(s, fs, runs, k - 1), FeatureName(fs[k - 1]), runs(k - 1))
  }

  /** The results of the first k features, one per feature, in order. */
  function Results(fs: seq<FeatureEntry>, runs: nat -> FeatureRun, k: nat): (rs: seq<FeatureResult>)
    requires k <= |fs|
    ensures |rs| == k
  {
    if k == 0 then [] else Results(fs, runs, k - 1) + [Recorded(FeatureName(fs[k - 1]), runs(k - 1))]
  }

  /** The successes among the first k features that carry `name`. */
  function SuccessesNamed(fs: seq<FeatureEntry>, runs: nat -> FeatureRun, k: nat, name: string): nat
    requires k <= |fs|
  {
    if k == 0 then 0
    else SuccessesNamed(fs, runs, k - 1, name)
         + (if FeatureName(fs[k - 1]) == name && runs(k - 1).Returned? && runs(k - 1).result.Succeeded? then 1 else 0)
  }

  /** The records of `cycleResults.filter(r => !r.success)`, in order. */
  function FailedOnes(results: seq<FeatureResult>): (f: seq<FeatureResult>)
    ensures |f| <= |results|
    ensures forall x :: x in f ==> x.Failed?
    ensures f == [] <==> forall j :: 0 <= j < |results| ==> results[j].Succeeded?
  {
    if results == [] then []
    else (if results[0].Failed? then [results[0]] else []) + FailedOnes(results[1..])
  }

  const PartialSuccess: string := "\U{26A0}\U{FE0F} Partial Success"
  const AllSuccess: string := "\U{2705} All Success"

  /** One line of the summary's failure list: `• feature: error`. */
  function FailureBullets(failed: seq<FeatureResult>): string
  {
    if failed == [] then ""
    else "\U{2022} " + failed[0].feature + ": " + (if failed[0].Failed? then failed[0].error else "undefined") + "\n"
         + FailureBullets(failed[1..])
  }

  const SummaryTitle: string := "<b>\U{1F4CA} CYCLE SUMMARY</b>\n"

  predicate EndsWith(text: string, tail: string)
  {
    |tail| <= |text| && text[|text| - |tail|..] == tail
  }

  /** `sendCycleSummary`: the cycle number, its duration, the status, and one
      bullet per failed result. */
  function CycleSummary(cycle: nat, duration: int, results: seq<FeatureResult>): string
  {
    var failed := FailedOnes(results);
    SummaryTitle
    + "<b>Cycle:</b> #" + NatToString(cycle) + "\n"
    + "<b>Duration:</b> " + IntToString(duration) + "ms\n"
    + (if |failed| > 0
       then "<b>Status:</b> " + PartialSuccess + "\n\n" + "<b>Failed Features:</b>\n" + FailureBullets(failed)
       else "<b>Status:</b> " + AllSuccess + "\n\n")
  }

  /** The summary opens with its title and the cycle number. Its status line
      is the last line, saying all succeeded, when nothing failed; otherwise
      it says partial success and is followed by the heading and the bullets
      of the failed results. */
  lemma SummaryShape(cycle: nat, duration: int, results: seq<FeatureResult>)
    ensures var text := CycleSummary(cycle, duration, results);
            && StartsWith(text, SummaryTitle + "<b>Cycle:</b> #" + NatToString(cycle) + "\n")
            && (FailedOnes(results) == [] ==> EndsWith(text, "<b>Status:</b> " + AllSuccess + "\n\n"))
            && (FailedOnes(results) != [] ==>
                  EndsWith(text, "<b>Status:</b> " + PartialSuccess + "\n\n" + "<b>Failed Features:</b>\n"
                                 + FailureBullets(FailedOnes(results))))
  {
    var failed := FailedOnes(results);
    var head := SummaryTitle + "<b>Cycle:</b> #" + NatToString(cycle) + "\n";
    var took := "<b>Duration:</b> " + IntToString(duration) + "ms\n";
    var status := if |failed| > 0
                  then "<b>Status:</b> " + PartialSuccess + "\n\n" + "<b>Failed Features:</b>\n" + FailureBullets(failed)
                  else "<b>Status:</b> " + AllSuccess + "\n\n";
    assert CycleSummary(cycle, duration, results) == head + took + status;
    Framed(head, took, status);
  }

  lemma Framed(head: string, middle: string, tail: string)
    ensures StartsWith(head + middle + tail, head) && EndsWith(head + middle + tail, tail)
  {
    var t := head + middle + tail;
    assert t[..|head|] == head;
    assert t[|t| - |tail|..] == tail;
  }

  /** `hoursSinceStart >= 24 && totalRuns % 24 === 0`; the hour count is a real
      quotient, so it reaches 24 exactly when 24 hours of milliseconds have
      passed. */
  predicate ReportDue(s: Stats, now: int)
  {
    now - s.startTime >= 24 * Cooldown.HourMs && s.totalRuns % 24 == 0
  }

  /** Once due, the report stays due at later times for the same statistics,
      and two cycles that both send it lie at least 24 runs apart. */
  lemma ReportSpacing(s: Stats, now: int, later: int, t: Stats, when: int)
    ensures ReportDue(s, now) && now <= later ==> ReportDue(s, later)
    ensures ReportDue(s, now) ==> now >= s.startTime + 86400000
    ensures ReportDue(s, now) && ReportDue(t, when) && s.totalRuns < t.totalRuns ==> t.totalRuns - s.totalRuns >= 24
  {
    if ReportDue(s, now) && ReportDue(t, when) && s.totalRuns < t.totalRuns {
      assert s.totalRuns == 24 * (s.totalRuns / 24) && t.totalRuns == 24 * (t.totalRuns / 24);
    }
  }

  /** The daily report's statistics. */
  function ReportOf(s: Stats): Report
  {
    Report(s.totalRuns, s.successful, s.failed, s.features)
  }

  /** What a cycle leaves: the statistics, the results or the escaping error,
      and the notifications it sent. */
  datatype CycleRun = CycleRun(stats: Stats, result: Outcome<seq<FeatureResult>>, log: seq<Event>)

  /** `totalRuns++` and `lastRunTime = new Date()`, before any feature runs. */
  function Started(s: Stats, times: CycleTimes): Stats
  {
    s.(totalRuns := s.totalRuns + 1, lastRunTime := Some(times.lastRun))
  }

  /** The notifications after a cycle's features: the summary when some
      result failed, then the daily report when it is due. */
  function CycleNotices(tallied: Stats, results: seq<FeatureResult>, times: CycleTimes): seq<Event>
  {
    var summary := if FailedOnes(results) != []
                   then [Notify(TextNotice(CycleSummary(tallied.totalRuns, times.cycleEnd - times.cycleStart, results)))]
                   else [];
    var report := if ReportDue(tallied, times.reportCheck) then [Notify(DailyReportNotice(ReportOf(tallied)))] else [];
    summary + report
  }

  /** `executeCycle` on statistics `s` and features `fs`. */
  function Cycle(s: Stats, fs: seq<FeatureEntry>, runs: nat -> FeatureRun, times: CycleTimes): (c: CycleRun)
    ensures c.stats.totalRuns == s.totalRuns + 1 && c.stats.startTime == s.startTime
    ensures c.stats.lastRunTime == Some(times.lastRun)
    ensures c.result.Ok? ==> |c.result.value| == |fs| && |c.log| <= 2
    ensures c.result.Err? ==> c.result.error == Retry.NullMessageError && c.log == []
  {
    var k := Reached(runs, 0, |fs|);
    var tallied := Tallied(Started(s, times), fs, runs, k);
    TalliedCounts(Started(s, times), fs, runs, k, "");
    if k < |fs| then CycleRun(tallied, Err(Retry.NullMessageError), [])
    else CycleRun(tallied, Ok(Results(fs, runs, k)), CycleNotices(tallied, Results(fs, runs, k), times))
  }

  /** The parts of a cycle, one by one. */
  lemma CycleParts(s: Stats, fs: seq<FeatureEntry>, runs: nat -> FeatureRun, times: CycleTimes)
    ensures var k := Reached(runs, 0, |fs|);
            var c := Cycle(s, fs, runs, times);
            && c.stats == Tallied(Started(s, times), fs, runs, k)
            && (k < |fs| ==> c.result == Err(Retry.NullMessageError) && c.log == [])
            && (k == |fs| ==> c.result == Ok(Results(fs, runs, k)) && c.log == CycleNotices(c.stats, Results(fs, runs, k), times))
  {
  }

  /** The tallies of k features: `totalRuns`, the start and `lastRunTime` stay,
      `successful + failed` grows by k, and each name's counter grows by the
      successes of the features carrying that name. */
  lemma {:induction false} TalliedCounts(s: Stats, fs: seq<FeatureEntry>, runs: nat -> FeatureRun, k: nat, name: string)
    requires k <= |fs|
    ensures var t := Tallied(s, fs, runs, k);
            && t.totalRuns == s.totalRuns && t.startTime == s.startTime && t.lastRunTime == s.lastRunTime
            && t.successful + t.failed == s.successful + s.failed + k
            && t.successful >= s.successful && t.failed >= s.failed
            && CountOf(t.features, name) == CountOf(s.features, name) + SuccessesNamed(fs, runs, k, name)
  {
    if k > 0 {
      TalliedCounts(s, fs, runs, k - 1, name);
      var before := Tallied(s, fs, runs, k - 1);
      assert Tallied(s, fs, runs, k) == Tally(before, FeatureName(fs[k - 1]), runs(k - 1));
      TallyCounts(before, FeatureName(fs[k - 1]), runs(k - 1), name);
    }
  }

  /** One feature's tally, with the same conclusions as `TalliedCounts`. */
  lemma TallyCounts(s: Stats, featureName: string, run: FeatureRun, name: string)
    ensures var t := Tally(s, featureName, run);
            && t.totalRuns == s.totalRuns && t.startTime == s.startTime && t.lastRunTime == s.lastRunTime
            && t.successful + t.failed == s.successful + s.failed + 1
            && t.successful >= s.successful && t.failed >= s.failed
            && CountOf(t.features, name)
               == CountOf(s.features, name) + (if featureName == name && run.Returned? && run.result.Succeeded? then 1 else 0)
  {
    BumpCounts(s.features, featureName, name);
  }

  /** The results of k features: feature j's result is its own record, or a
      failure naming it with the thrown message; it is a success exactly when
      feature j returned a success. */
  lemma {:induction false} ResultsInOrder(fs: seq<FeatureEntry>, runs: nat -> FeatureRun, k: nat, j: nat)
    requires k <= |fs| && j < k
    ensures Results(fs, runs, k)[j] == Recorded(FeatureName(fs[j]), runs(j))
    ensures Results(fs, runs, k)[j].Succeeded? <==> runs(j).Returned? && runs(j).result.Succeeded?
  {
    if j < k - 1 {
      ResultsInOrder(fs, runs, k - 1, j);
    }
  }

  /** A cycle adds one to `totalRuns`, sets `lastRunTime` and keeps the start.
      When no feature throws `null`, every feature yields exactly one result
      and `successful + failed` grows by the number of features; otherwise
      the cycle escapes at the first such feature, with the tallies of those
      before it and no notification. */
  lemma CycleTallies(s: Stats, fs: seq<FeatureEntry>, runs: nat -> FeatureRun, times: CycleTimes)
    ensures var c := Cycle(s, fs, runs, times);
            && c.stats.totalRuns == s.totalRuns + 1
            && c.stats.lastRunTime == Some(times.lastRun)
            && c.stats.startTime == s.startTime
            && (c.result.Ok? <==> forall j :: 0 <= j < |fs| ==> !runs(j).ThrewNull?)
            && (c.result.Ok? ==> |c.result.value| == |fs| && c.stats.successful + c.stats.failed == s.successful + s.failed + |fs|)
            && (c.result.Err? ==>
                  var k := Reached(runs, 0, |fs|);
                  && c.result.error == Retry.NullMessageError && c.log == []
                  && k < |fs| && runs(k).ThrewNull?
                  && c.stats.successful + c.stats.failed == s.successful + s.failed + k)
  {
    TalliedCounts(Started(s, times), fs, runs, Reached(runs, 0, |fs|), "");
  }

  /** The cycle summary is sent exactly when some result of the cycle is a
      failure, and then it is the first notification; the daily report is
      sent exactly when 24 hours have passed since the start and the run
      count is a multiple of 24, and then it is the last. */
  lemma CycleNotifications(s: Stats, fs: seq<FeatureEntry>, runs: nat -> FeatureRun, times: CycleTimes)
    requires forall j :: 0 <= j < |fs| ==> !runs(j).ThrewNull?
    ensures var c := Cycle(s, fs, runs, times);
            && c.result.Ok?
            && |c.log| <= 2
            && ((exists j :: 0 <= j < |fs| && !c.result.value[j].Succeeded?) <==>
                  (c.log != [] && c.log[0] == Notify(TextNotice(CycleSummary(c.stats.totalRuns, times.cycleEnd - times.cycleStart, c.result.value)))))
            && (ReportDue(c.stats, times.reportCheck) <==>
                  (c.log != [] && c.log[|c.log| - 1] == Notify(DailyReportNotice(ReportOf(c.stats)))))
  {
    CycleParts(s, fs, runs, times);
    assert Reached(runs, 0, |fs|) == |fs|;
    var c := Cycle(s, fs, runs, times);
    var rs := Results(fs, runs, |fs|);
    assert c.result.value == rs;
    NoticesShape(c.stats, rs, times);
  }

  /** The notifications after the features: at most two, the summary first
      exactly when some result failed, the report last exactly when due. */
  lemma NoticesShape(tallied: Stats, results: seq<FeatureResult>, times: CycleTimes)
    ensures var log := CycleNotices(tallied, results, times);
            && |log| <= 2
            && ((exists j :: 0 <= j < |results| && !results[j].Succeeded?) <==>
                  (log != [] && log[0] == Notify(TextNotice(CycleSummary(tallied.totalRuns, times.cycleEnd - times.cycleStart, results)))))
            && (ReportDue(tallied, times.reportCheck) <==>
                  (log != [] && log[|log| - 1] == Notify(DailyReportNotice(ReportOf(tallied)))))
  {
    NoticesAtMostTwo(tallied, results, times);
    SummaryFirst(tallied, results, times);
    ReportLast(tallied, results, times);
  }

  lemma SummaryFirst(tallied: Stats, results: seq<FeatureResult>, times: CycleTimes)
    ensures var log := CycleNotices(tallied, results, times);
            (exists j :: 0 <= j < |results| && !results[j].Succeeded?) <==>
              (log != [] && log[0] == Notify(TextNotice(CycleSummary(tallied.totalRuns, times.cycleEnd - times.cycleStart, results))))
  {
    SomeFailed(results);
    if FailedOnes(results) == [] {
      var report := if ReportDue(tallied, times.reportCheck) then [Notify(DailyReportNotice(ReportOf(tallied)))] else [];
      assert CycleNotices(tallied, results, times) == report;
    }
  }

  lemma NoticesAtMostTwo(tallied: Stats, results: seq<FeatureResult>, times: CycleTimes)
    ensures |CycleNotices(tallied, results, times)| <= 2
  {
  }

  /** Some result failed exactly when the failures are not empty. */
  lemma SomeFailed(results: seq<FeatureResult>)
    ensures FailedOnes(results) != [] <==> exists j :: 0 <= j < |results| && !results[j].Succeeded?
  {
  }

  lemma ReportLast(tallied: Stats, results: seq<FeatureResult>, times: CycleTimes)
    ensures var log := CycleNotices(tallied, results, times);
            ReportDue(tallied, times.reportCheck) <==>
              (log != [] && log[|log| - 1] == Notify(DailyReportNotice(ReportOf(tallied))))
  {
  }

  /** A failure reported by the summary is exactly a feature that did not
      return a success. */
  lemma CycleFailures(s: Stats, fs: seq<FeatureEntry>, runs: nat -> FeatureRun, times: CycleTimes, j: nat)
    requires forall i :: 0 <= i < |fs| ==> !runs(i).ThrewNull?
    requires j < |fs|
    ensures var c := Cycle(s, fs, runs, times);
            c.result.Ok? && (c.result.value[j].Succeeded? <==> runs(j).Returned? && runs(j).result.Succeeded?)
  {
    assert Reached(runs, 0, |fs|) == |fs|;
    ResultsInOrder(fs, runs, |fs|, j);
  }

  /** The two swap features of the default list share the "Token Swap"
      counter: when every feature succeeds it grows by two in one cycle. */
  lemma SwapsShareCounter(s: Stats, runs: nat -> FeatureRun, times: CycleTimes)
    requires forall j :: 0 <= j < 4 ==> runs(j).Returned? && runs(j).result.Succeeded?
    ensures var c := Cycle(s, DefaultFeatures, runs, times);
            CountOf(c.stats.features, SwapFeatures.SwapFeatureName) == CountOf(s.features, SwapFeatures.SwapFeatureName) + 2
  {
    var fs := DefaultFeatures;
    assert Reached(runs, 0, 4) == 4;
    TalliedCounts(Started(s, times), fs, runs, 4, SwapFeatures.SwapFeatureName);
    assert SuccessesNamed(fs, runs, 4, SwapFeatures.SwapFeatureName) == 2;
  }

  // ---------------------------------------------------------------------------
  // Read-only views

  /** One entry of `getDexFeatures()`: a swap or a liquidity feature, its DEX
      and its repetitions; its `featureName` and `type` follow from its class. */
  datatype DexFeature = DexFeature(isSwap: bool, dexType: string, executionCount: int)
  {
    function featureName(): string
    {
      if isSwap then SwapFeatures.SwapFeatureName else LiquidityFeatures.LiquidityFeatureName
    }

    function kind(): string
    {
      if isSwap then "swap" else "liquidity"
    }
  }

  /** The description of a swap or liquidity feature: its name and type are
      those of its class, its DEX and repetitions its own. */
  function DexFeatureOf(f: FeatureEntry): (d: DexFeature)
    requires !f.UploadEntry?
    ensures d.featureName() == FeatureName(f)
    ensures d.kind() == if f.SwapEntry? then "swap" else "liquidity"
    ensures d.dexType == f.dexType && d.executionCount == f.executionCount
  {
    DexFeature(f.SwapEntry?, f.dexType, f.executionCount)
  }

  /** The swap and liquidity features of a list, described in order. */
  function DexFeatures(fs: seq<FeatureEntry>): (ds: seq<DexFeature>)
    ensures |ds| <= |fs|
  {
    if fs == [] then []
    else (if fs[0].UploadEntry? then [] else [DexFeatureOf(fs[0])]) + DexFeatures(fs[1..])
  }

  lemma {:induction false} DexFeaturesAppend(a: seq<FeatureEntry>, b: seq<FeatureEntry>)
    ensures DexFeatures(a + b) == DexFeatures(a) + DexFeatures(b)
  {
    if a == [] {
      assert a + b == b;
    } else {
      var head := if a[0].UploadEntry? then [] else [DexFeatureOf(a[0])];
      assert (a + b)[0] == a[0] && (a + b)[1..] == a[1..] + b;
      assert DexFeatures(a + b) == head + DexFeatures(a[1..] + b);
      DexFeaturesAppend(a[1..], b);
      assert DexFeatures(a) == head + DexFeatures(a[1..]);
      assert head + (DexFeatures(a[1..]) + DexFeatures(b)) == head + DexFeatures(a[1..]) + DexFeatures(b);
    }
  }

  lemma DexFeaturesOne(f: FeatureEntry)
    ensures DexFeatures([f]) == if f.UploadEntry? then [] else [DexFeatureOf(f)]
  {
    assert [f][1..] == [];
  }

  /** `dexType.toUpperCase()`-free status text of a DEX feature:
      `name (dexType, Nx)`. */
  function DexInfo(d: DexFeature): string
  {
    d.featureName() + " (" + d.dexType + ", " + IntToString(d.executionCount) + "x)"
  }

  function DexInfos(ds: seq<DexFeature>): (infos: seq<string>)
    ensures |infos| == |ds|
    ensures forall k :: 0 <= k < |ds| ==> infos[k] == DexInfo(ds[k])
  {
    seq(|ds|, k requires 0 <= k < |ds| => DexInfo(ds[k]))
  }

  function FeatureNames(fs: seq<FeatureEntry>): (ns: seq<string>)
    ensures |ns| == |fs|
    ensures forall k :: 0 <= k < |fs| ==> ns[k] == FeatureName(fs[k])
  {
    seq(|fs|, k requires 0 <= k < |fs| => FeatureName(fs[k]))
  }

  /** The success rate `getStatus` shows: successes per run, not per feature
      execution, to two decimals, or "0%" before the first run. */
  function SuccessRate(successful: nat, totalRuns: nat): string
  {
    if totalRuns > 0 then ToFixed(100 * successful, totalRuns, 2) + "%" else "0%"
  }

  /** The rate divides feature successes by cycles, not by feature
      executions: when every cycle has m successes on average the rate shown
      is at least m * 100.00%, so with several features it passes 100%. */
  lemma SuccessRatePerRun(successful: nat, totalRuns: nat, m: nat)
    requires 0 < totalRuns && m * totalRuns <= successful
    ensures SuccessRate(successful, totalRuns) == ToFixed(100 * successful, totalRuns, 2) + "%"
    ensures Rounded(100 * successful, totalRuns, 2) >= 10000 * m
  {
    var n := Rounded(100 * successful, totalRuns, 2);
    assert Pow10(2) == 100 by {
      assert Pow10(1) == 10 * Pow10(0);
    }
    assert 20000 * successful < totalRuns * (2 * n + 1);
    MulMono(20000, m * totalRuns, successful);
    assert totalRuns * (20000 * m) <= 20000 * successful;
    Cancel(totalRuns, 20000 * m, 2 * n + 1);
  }

  lemma MulMono(q: nat, a: int, b: int)
    requires a <= b
    ensures q * a <= q * b
  {
  }

  lemma Cancel(q: nat, a: int, b: int)
    requires q > 0 && q * a < q * b
    ensures a < b
  {
    if a >= b {
      MulMono(q, b, a);
    }
  }

  /** `getStatus()`. */
  datatype Status = Status(isRunning: bool, totalRuns: nat, successful: nat, failed: nat, successRate: string,
                           uptime: string, lastRun: Option<int>, features: seq<string>, dexFeatures: seq<string>)

  /** The whole hours and the minutes below 60 of an uptime, each rounded
      down as `Math.floor` does. */
  function UptimeParts(uptime: int): (p: (int, int))
    ensures uptime >= 0 ==>
              && p.0 >= 0 && 0 <= p.1 < 60
              && p.0 * Cooldown.HourMs + p.1 * Cooldown.MinuteMs <= uptime < p.0 * Cooldown.HourMs + p.1 * Cooldown.MinuteMs + Cooldown.MinuteMs
  {
    Cooldown.DurationPartsSplit(uptime);
    var d := Cooldown.DurationParts(uptime);
    (d.hours, d.minutes)
  }

  // ---------------------------------------------------------------------------
  // The manager

  const CriticalPauseMs: nat := 5 * 60 * 1000

  /** The message of the run loop's catch block. */
  function CriticalText(time: string, message: string): string
  {
    "<b>\U{1F4A5} CRITICAL ERROR</b>\n" + "<b>Time:</b> " + time + "\n" + "<b>Error:</b> " + message + "\n"
    + "<b>Status:</b> Restarting in 5 minutes..."
  }

  /** One DEX entry of the startup announcement: the upper-cased type, the
      DEX and the repetitions (the status lists names instead). */
  function StartupDexInfo(d: DexFeature): string
  {
    ToUpper(d.kind()) + " (" + d.dexType + ", " + IntToString(d.executionCount) + "x)"
  }

  function StartupDexInfos(ds: seq<DexFeature>): (infos: seq<string>)
    ensures |infos| == |ds|
    ensures forall k :: 0 <= k < |ds| ==> infos[k] == StartupDexInfo(ds[k])
  {
    seq(|ds|, k requires 0 <= k < |ds| => StartupDexInfo(ds[k]))
  }

  /** The announcement `run()` sends before its loop: the time, every
      feature's name and every DEX feature, each list joined by ", ". */
  function StartupText(time: string, fs: seq<FeatureEntry>): string
  {
    "<b>\U{1F680} 0G AUTOMATION STARTED</b>\n" + "<b>Time:</b> " + time + "\n"
    + "<b>Features:</b> " + JoinWith(", ", FeatureNames(fs)) + "\n"
    + "<b>DEX Features:</b> " + JoinWith(", ", StartupDexInfos(DexFeatures(fs))) + "\n"
    + "<b>Status:</b> Running continuously"
  }

  /** The name `addDexFeature` gives an executionCount it is not passed. */
  const DefaultExecutionCount: int := 1

  /** The feature `removeDexFeature(featureType, dexType)` looks for: a DEX
      feature of that DEX, a swap when the type is exactly "swap" and a
      liquidity feature for every other type. */
  predicate RemovalMatch(f: FeatureEntry, featureType: string, dexType: string)
  {
    !f.UploadEntry? && f.dexType == dexType && (if featureType == "swap" then f.SwapEntry? else f.LiquidityEntry?)
  }

  /** `findIndex` from `lo`: the first matching position, or -1. */
  function FindFrom(fs: seq<FeatureEntry>, lo: nat, featureType: string, dexType: string): (i: int)
    requires lo <= |fs|
    ensures i == -1 || lo <= i < |fs|
    ensures i >= 0 ==> RemovalMatch(fs[i], featureType, dexType)
    ensures i >= 0 ==> forall j :: lo <= j < i ==> !RemovalMatch(fs[j], featureType, dexType)
    ensures i == -1 ==> forall j :: lo <= j < |fs| ==> !RemovalMatch(fs[j], featureType, dexType)
    decreases |fs| - lo
  {
    if lo == |fs| then -1
    else if RemovalMatch(fs[lo], featureType, dexType) then lo
    else FindFrom(fs, lo + 1, featureType, dexType)
  }

  /** Feature i extends the tallies and the results of those before it. */
  lemma NextTallied(s: Stats, fs: seq<FeatureEntry>, runs: nat -> FeatureRun, i: nat)
    requires i < |fs|
    ensures Tallied(s, fs, runs, i + 1) == Tally(Tallied(s, fs, runs, i), FeatureName(fs[i]), runs(i))
    ensures Results(fs, runs, i + 1) == Results(fs, runs, i) + [Recorded(FeatureName(fs[i]), runs(i))]
  {
  }

  /** One pass of the feature loop for a run that did not throw `null`: a
      success bumps `successful` and the feature's counter, a returned failure
      or a thrown error bumps `failed`, and the result is recorded. */
  method FeatureStep(stats: Stats, cycleResults: seq<FeatureResult>, name: string, run: FeatureRun)
    returns (stats': Stats, cycleResults': seq<FeatureResult>)
    requires !run.ThrewNull?
    ensures stats' == Tally(stats, name, run)
    ensures cycleResults' == cycleResults + [Recorded(name, run)]
  {
    match run {
      case Threw(message) =>
        stats' := stats.(failed := stats.failed + 1);
        cycleResults' := cycleResults + [Failed(name, "", message)];
      case Returned(result) =>
        cycleResults' := cycleResults + [result];
        if result.Succeeded? {
          stats' := stats.(successful := stats.successful + 1, features := Bump(stats.features, name));
        } else {
          stats' := stats.(failed := stats.failed + 1);
        }
    }
  }

  /** The feature loop of `executeCycle`: each feature's run is tallied and
      its result recorded as it comes; a feature that threw `null` ends the
      loop and the cycle. */
  method RunFeatures(started: Stats, fs: seq<FeatureEntry>, runs: nat -> FeatureRun)
    returns (stats: Stats, cycleResults: seq<FeatureResult>, escaped: bool)
    ensures var k := Reached(runs, 0, |fs|);
            && stats == Tallied(started, fs, runs, k)
            && escaped == (k < |fs|)
            && (!escaped ==> cycleResults == Results(fs, runs, |fs|))
  {
    stats := started;
    cycleResults := [];
    var i := 0;
    while i < |fs|
      invariant 0 <= i <= |fs|
      invariant forall j :: 0 <= j < i ==> !runs(j).ThrewNull?
      invariant stats == Tallied(started, fs, runs, i)
      invariant cycleResults == Results(fs, runs, i)
    {
      if runs(i).ThrewNull? {
        ReachedAt(runs, |fs|, i);
        return stats, cycleResults, true;
      }
      stats, cycleResults := FeatureStep(stats, cycleResults, FeatureName(fs[i]), runs(i));
      NextTallied(started, fs, runs, i);
      i := i + 1;
    }
    ReachedAt(runs, |fs|, |fs|);
    escaped := false;
  }

  /** The end of `executeCycle`: `sendCycleSummary` when some feature failed,
      then `sendDailyReport` when it is due. */
  method NotifyAfterCycle(tallied: Stats, cycleResults: seq<FeatureResult>, times: CycleTimes)
    returns (log: seq<Event>)
    ensures log == CycleNotices(tallied, cycleResults, times)
  {
    log := [];
    var failedFeatures := |FailedOnes(cycleResults)|;
    if failedFeatures > 0 {
      log := log + [Notify(TextNotice(CycleSummary(tallied.totalRuns, times.cycleEnd - times.cycleStart, cycleResults)))];
    }
    if ReportDue(tallied, times.reportCheck) {
      log := log + [Notify(DailyReportNotice(ReportOf(tallied)))];
    }
  }

  class AutomationManager {
    var features: seq<FeatureEntry>
    var stats: Stats

    /** The default feature list and empty statistics started at `now`. */
    constructor(now: int)
      ensures features == DefaultFeatures
      ensures stats == Stats(0, 0, 0, [], now, None)
    {
      features := DefaultFeatures;
      stats := Stats(0, 0, 0, [], now, None);
    }

    /** `executeCycle`: runs every feature once, in list order, tallying each
        result as it comes, then sends the summary and the daily report under
        their conditions. Feature i's `execute` yields `runs(i)`. */
    method ExecuteCycle(runs: nat -> FeatureRun, times: CycleTimes)
      returns (r: Outcome<seq<FeatureResult>>, log: seq<Event>)
      modifies this
      ensures features == old(features)
      ensures var c := Cycle(old(stats), old(features), runs, times);
              stats == c.stats && r == c.result && log == c.log
    {
      var fs := features;
      CycleParts(stats, fs, runs, times);
      var started := stats.(totalRuns := stats.totalRuns + 1, lastRunTime := Some(times.lastRun));
      assert started == Started(stats, times);
      var tallied, cycleResults, escaped := RunFeatures(started, fs, runs);
      stats := tallied;
      if escaped {
        return Err(Retry.NullMessageError), [];
      }
      log := NotifyAfterCycle(tallied, cycleResults, times);
      r := Ok(cycleResults);
    }

    /** The start of `run()`: one announcement of the current feature list,
        changing nothing. */
    method Announce(time: string) returns (log: seq<Event>)
      ensures log == [Notify(TextNotice(StartupText(time, features)))]
    {
      log := [Notify(TextNotice(StartupText(time, features)))];
    }

    /** One step of `run()`'s loop: a cycle followed by the cooldown; a cycle
        that escapes is answered by the critical notice and a five-minute
        pause instead. Either way the step ends with exactly one wait. */
    method RunStep(runs: nat -> FeatureRun, times: CycleTimes, hourDraw: Random.Draw, minuteDraw: Random.Draw,
                   now: int, time: string)
      returns (log: seq<Event>)
      modifies this
      ensures features == old(features)
      ensures var c := Cycle(old(stats), old(features), runs, times);
              && stats == c.stats
              && (c.result.Ok? ==>
                    log == c.log + [Sleep(Cooldown.GenerateRandomCooldown(hourDraw, minuteDraw, now).totalMilliseconds)])
              && (c.result.Err? ==>
                    log == c.log + [Notify(TextNotice(CriticalText(time, c.result.error))), Sleep(CriticalPauseMs)])
    {
      var r, cycleLog := ExecuteCycle(runs, times);
      if r.Ok? {
        var pause, wait := Cooldown.WaitForCooldown(hourDraw, minuteDraw, now);
        log := cycleLog + wait;
      } else {
        log := cycleLog + [Notify(TextNotice(CriticalText(time, r.error))), Sleep(CriticalPauseMs)];
      }
    }

    /** `addFeature`: appends the feature and changes nothing else. */
    method AddFeature(f: FeatureEntry)
      modifies this
      ensures features == old(features) + [f] && stats == old(stats)
    {
      features := features + [f];
    }

    /** `addDexFeature`: "swap" or "liquidity" in any letter case appends one
        feature of that kind for the DEX and returns it; any other type is
        rejected and leaves the list as it was. */
    method AddDexFeature(featureType: string, dexType: string, executionCount: int) returns (r: Outcome<FeatureEntry>)
      modifies this
      ensures stats == old(stats)
      ensures ToLower(featureType) == "swap" ==> r == Ok(SwapEntry(dexType, executionCount))
      ensures ToLower(featureType) == "liquidity" ==> r == Ok(LiquidityEntry(dexType, executionCount))
      ensures ToLower(featureType) != "swap" && ToLower(featureType) != "liquidity" ==>
                r == Err("Unsupported feature type: " + featureType)
      ensures r.Ok? ==> features == old(features) + [r.value]
      ensures r.Err? ==> features == old(features)
    {
      var lowered := ToLower(featureType);
      var f: FeatureEntry;
      if lowered == "swap" {
        f := SwapEntry(dexType, executionCount);
      } else if lowered == "liquidity" {
        f := LiquidityEntry(dexType, executionCount);
      } else {
        return Err("Unsupported feature type: " + featureType);
      }
      features := features + [f];
      r := Ok(f);
    }

    /** `removeDexFeature`: removes the first matching feature and returns it,
        keeping the others in order; with no match it returns `null` and the
        list is unchanged. */
    method RemoveDexFeature(featureType: string, dexType: string) returns (removed: Option<FeatureEntry>)
      modifies this
      ensures stats == old(stats)
      ensures removed.None? <==> forall j :: 0 <= j < |old(features)| ==> !RemovalMatch(old(features)[j], featureType, dexType)
      ensures removed.None? ==> features == old(features)
      ensures removed.Some? ==>
                var i := FindFrom(old(features), 0, featureType, dexType);
                && 0 <= i < |old(features)|
                && removed.value == old(features)[i]
                && RemovalMatch(removed.value, featureType, dexType)
                && (forall j :: 0 <= j < i ==> !RemovalMatch(old(features)[j], featureType, dexType))
                && features == old(features)[..i] + old(features)[i + 1..]
    {
      var featureIndex := FindFrom(features, 0, featureType, dexType);
      if featureIndex != -1 {
        removed := Some(features[featureIndex]);
        features := features[..featureIndex] + features[featureIndex + 1..];
        return;
      }
      removed := None;
    }

    /** `getDexFeatures()`: reads only. */
    function GetDexFeatures(): (ds: seq<DexFeature>)
      reads this
      ensures |ds| <= |features|
    {
      DexFeatures(features)
    }

    /** `getUptime()` at time `now`: "<hours>h <minutes>m". */
    function GetUptime(now: int): (u: string)
      reads this
      ensures now >= stats.startTime ==>
                exists h: nat, m: nat ::
                  && m < 60
                  && h * Cooldown.HourMs + m * Cooldown.MinuteMs <= now - stats.startTime
                  && now - stats.startTime < h * Cooldown.HourMs + (m + 1) * Cooldown.MinuteMs
                  && u == NatToString(h) + "h " + NatToString(m) + "m"
    {
      var p := UptimeParts(now - stats.startTime);
      IntToString(p.0) + "h " + IntToString(p.1) + "m"
    }

    /** `getStatus()` at time `now`: reads only. */
    function GetStatus(now: int): (st: Status)
      reads this
      ensures st.isRunning
      ensures st.totalRuns == stats.totalRuns && st.successful == stats.successful && st.failed == stats.failed
      ensures st.successRate == SuccessRate(stats.successful, stats.totalRuns)
      ensures st.lastRun == stats.lastRunTime
      ensures st.features == FeatureNames(features)
      ensures st.dexFeatures == DexInfos(DexFeatures(features))
    {
      Status(true, stats.totalRuns, stats.successful, stats.failed, SuccessRate(stats.successful, stats.totalRuns),
             GetUptime(now), stats.lastRunTime, FeatureNames(features), DexInfos(DexFeatures(features)))
    }
  }

  /** Adding a feature adds its description to `getDexFeatures()` exactly when
      it is a DEX feature. */
  lemma DexFeaturesAfterAdd(fs: seq<FeatureEntry>, f: FeatureEntry)
    ensures DexFeatures(fs + [f]) == DexFeatures(fs) + (if f.UploadEntry? then [] else [DexFeatureOf(f)])
  {
    DexFeaturesAppend(fs, [f]);
    DexFeaturesOne(f);
  }

  /** Removing the feature at position i removes exactly its description from
      `getDexFeatures()`, keeping the others in order. */
  lemma {:induction false} DexFeaturesAfterRemove(fs: seq<FeatureEntry>, i: nat)
    requires i < |fs| && !fs[i].UploadEntry?
    ensures DexFeatures(fs) == DexFeatures(fs[..i]) + [DexFeatureOf(fs[i])] + DexFeatures(fs[i + 1..])
    ensures DexFeatures(fs[..i] + fs[i + 1..]) == DexFeatures(fs[..i]) + DexFeatures(fs[i + 1..])
  {
    var front, x, back := fs[..i], fs[i], fs[i + 1..];
    var df, dx, db := DexFeatures(front), DexFeatureOf(x), DexFeatures(back);
    assert DexFeatures(fs) == df + ([dx] + db) by {
      assert fs == front + ([x] + back);
      DexFeaturesAppend(front, [x] + back);
      DexFeaturesAppend([x], back);
      DexFeaturesOne(x);
    }
    assert df + ([dx] + db) == df + [dx] + db;
    DexFeaturesAppend(front, back);
  }

  /** The default list holds three DEX features: the Jaine swap and liquidity
      features of 3 and the Zer0 swap of 2. */
  lemma DefaultDexFeatures()
    ensures DexFeatures(DefaultFeatures) ==
            [DexFeature(true, "jaine", 3), DexFeature(false, "jaine", 3), DexFeature(true, "zer0", 2)]
  {
    var fs := DefaultFeatures;
    assert fs == [fs[0]] + ([fs[1]] + ([fs[2]] + [fs[3]]));
    DexFeaturesAppend([fs[0]], [fs[1]] + ([fs[2]] + [fs[3]]));
    DexFeaturesAppend([fs[1]], [fs[2]] + [fs[3]]);
    DexFeaturesAppend([fs[2]], [fs[3]]);
    DexFeaturesOne(fs[0]);
    DexFeaturesOne(fs[1]);
    DexFeaturesOne(fs[2]);
    DexFeaturesOne(fs[3]);
  }

  /** The default list is announced as the upload, two swaps and a liquidity
      feature by name, and by type as the Jaine swap and liquidity features of
      3 and the Zer0 swap of 2 (see `StartupInfoOf` for their text). */
  lemma DefaultStartup()
    ensures FeatureNames(DefaultFeatures)
            == [UploadFeatures.UploadFeatureName, SwapFeatures.SwapFeatureName,
                LiquidityFeatures.LiquidityFeatureName, SwapFeatures.SwapFeatureName]
    ensures StartupDexInfos(DexFeatures(DefaultFeatures))
            == [StartupDexInfo(DexFeature(true, "jaine", 3)), StartupDexInfo(DexFeature(false, "jaine", 3)),
                StartupDexInfo(DexFeature(true, "zer0", 2))]
  {
    DefaultDexFeatures();
  }

  /** The startup entry of one DEX feature of fewer than ten repetitions. */
  lemma StartupInfoOf(isSwap: bool, dexType: string, n: nat)
    requires n < 10
    ensures StartupDexInfo(DexFeature(isSwap, dexType, n))
            == (if isSwap then "SWAP" else "LIQUIDITY") + " (" + dexType + ", " + [Digit(n)] + "x)"
  {
    if isSwap {
      assert ToUpper("swap") == "SWAP";
    } else {
      assert ToUpper("liquidity") == "LIQUIDITY";
    }
  }
}
