/** The Wait loops of machine/machine.go against a monotone clock and arbitrary observations. */
module Polling {
  import opened Sequences

  /** What the k-th call observes, how long it takes, and how much longer than asked the pause after it
      lasts. `start` is the time between setting the deadline and first looking at the clock. */
  datatype World<!T> = World(obs: nat -> T, cost: nat -> nat, lag: nat -> nat, start: nat)

  /** Durations in nanoseconds; nothing keeps a caller from passing negative ones. */
  datatype Retry = Retry(timeout: int, interval: int)

  const SECOND: int := 1_000_000_000
  const DEFAULT_RETRY := Retry(60 * SECOND, SECOND)

  datatype RetryOption = Timeout(d: int) | Interval(d: int)

  /** What a loop makes of one observation. */
  datatype Verdict<R> = Again | Done(value: R) | Abort

  datatype Result<R> = Found(value: R) | Aborted | TimedOut

  /** `time.Sleep` returns at once for a negative duration. */
  function Pause(interval: int): (d: nat)
    ensures interval <= d && (d == interval || d == 0)
  {
    if interval > 0 then interval else 0
  }

  /** The time, counted from where the deadline was set, when the loop condition is tested again after
      `k` calls. */
  function Clock<T>(w: World<T>, interval: int, k: nat): nat {
    if k == 0 then w.start
    else Clock(w, interval, k - 1) + w.cost(k - 1) + Pause(interval) + w.lag(k - 1)
  }

  predicate TakesTime<T>(w: World<T>, rc: Retry, k: nat) {
    w.cost(k) + Pause(rc.interval) + w.lag(k) > 0
  }

  /** Every round takes some time, as it does with any positive interval. */
  ghost predicate Advances<T>(w: World<T>, rc: Retry) {
    forall k: nat :: TakesTime(w, rc, k)
  }

  lemma PositiveIntervalAdvances<T>(w: World<T>, rc: Retry)
    requires rc.interval > 0
    ensures Advances(w, rc)
  {
    forall k: nat ensures TakesTime(w, rc, k) {
    }
  }

  /** The k-th call is made before the deadline and decides nothing. */
  predicate Passes<T, R>(w: World<T>, rc: Retry, judge: T -> Verdict<R>, k: nat) {
    Clock(w, rc.interval, k) < rc.timeout && judge(w.obs(k)).Again?
  }

  /** So do the first `calls` calls. */
  predicate Undecided<T, R>(w: World<T>, rc: Retry, judge: T -> Verdict<R>, calls: nat) {
    calls == 0 || (Undecided(w, rc, judge, calls - 1) && Passes(w, rc, judge, calls - 1))
  }

  lemma {:induction false} UndecidedAt<T, R>(w: World<T>, rc: Retry, judge: T -> Verdict<R>, calls: nat, k: nat)
    requires Undecided(w, rc, judge, calls) && k < calls
    ensures Passes(w, rc, judge, k)
  {
    if k < calls - 1 {
      UndecidedAt(w, rc, judge, calls - 1, k);
    }
  }

  /** The loop ended at time `end` after `calls` calls. */
  ghost predicate Ended<T, R>(w: World<T>, rc: Retry, judge: T -> Verdict<R>, calls: nat, r: Result<R>, end: nat) {
    if r.TimedOut? then
      && Undecided(w, rc, judge, calls)
      && end == Clock(w, rc.interval, calls) >= rc.timeout
    else
      && calls > 0 && Undecided(w, rc, judge, calls - 1)
      && Clock(w, rc.interval, calls - 1) < rc.timeout
      && judge(w.obs(calls - 1)) == (if r.Found? then Done(r.value) else Abort)
      && end == Clock(w, rc.interval, calls - 1) + w.cost(calls - 1)
  }

  lemma {:induction false} ClockGrows<T>(w: World<T>, rc: Retry, k: nat)
    requires Advances(w, rc)
    ensures Clock(w, rc.interval, k) >= k
  {
    if k > 0 {
      ClockGrows(w, rc, k - 1);
      assert TakesTime(w, rc, k - 1);
    }
  }

  lemma {:induction false} ClockMonotone<T>(w: World<T>, interval: int, j: nat, k: nat)
    requires j <= k
    ensures Clock(w, interval, j) <= Clock(w, interval, k)
  {
    if j < k {
      ClockMonotone(w, interval, j, k - 1);
    }
  }

  lemma {:induction false} ClockSteps<T>(w: World<T>, interval: int, k: nat)
    requires interval > 0
    ensures Clock(w, interval, k) >= k * interval
  {
    if k > 0 {
      ClockSteps(w, interval, k - 1);
    }
  }

  /** The loop condition is tested at time `now` after `calls` calls, none of which decided. */
  ghost predicate At<T, R>(w: World<T>, rc: Retry, judge: T -> Verdict<R>, calls: nat, now: int) {
    Undecided(w, rc, judge, calls) && now == Clock(w, rc.interval, calls)
  }

  /** When the next round can begin. */
  function Later<T>(w: World<T>, rc: Retry, calls: nat, now: int): int {
    now + w.cost(calls) + Pause(rc.interval) + w.lag(calls)
  }

  /** One more round that decides nothing. */
  lemma Round<T, R>(w: World<T>, rc: Retry, judge: T -> Verdict<R>, calls: nat, now: int)
    requires Advances(w, rc) && At(w, rc, judge, calls, now) && now < rc.timeout && judge(w.obs(calls)).Again?
    ensures At(w, rc, judge, calls + 1, Later(w, rc, calls, now)) && Later(w, rc, calls, now) > now
  {
    assert TakesTime(w, rc, calls);
  }

  /** A round that decides is the last. */
  lemma LastRound<T, R>(w: World<T>, rc: Retry, judge: T -> Verdict<R>, calls: nat, now: int, r: Result<R>)
    requires At(w, rc, judge, calls, now) && now < rc.timeout
    requires !r.TimedOut? && judge(w.obs(calls)) == if r.Found? then Done(r.value) else Abort
    ensures now >= 0 && Ended(w, rc, judge, calls + 1, r, now + w.cost(calls))
  {
  }

  /** The deadline ends the loop. */
  lemma DeadlinePasses<T, R>(w: World<T>, rc: Retry, judge: T -> Verdict<R>, calls: nat, now: int)
    requires At(w, rc, judge, calls, now) && now >= rc.timeout
    ensures now >= 0 && Ended(w, rc, judge, calls, TimedOut, now)
  {
  }

  // ----- The loops -----

  /** The loop that WaitForOpenPort, WaitForFile, WaitForClosedPort, WaitForHTTP and WaitUntilOutput
      share; they differ in what they make of an observation. */
  method Poll<T, R>(w: World<T>, rc: Retry, judge: T -> Verdict<R>) returns (r: Result<R>, calls: nat, end: nat)
    requires Advances(w, rc)
    ensures Ended(w, rc, judge, calls, r, end)
  {
    calls := 0;
    var now := w.start;
    while now < rc.timeout
      invariant At(w, rc, judge, calls, now)
      decreases rc.timeout - now
    {
      var verdict := judge(w.obs(calls));
      var answered := now + w.cost(calls);
      if verdict.Done? {
        LastRound(w, rc, judge, calls, now, Found(verdict.value));
        return Found(verdict.value), calls + 1, answered;
      }
      if verdict.Abort? {
        LastRound(w, rc, judge, calls, now, Aborted);
        return Aborted, calls + 1, answered;
      }
      Round(w, rc, judge, calls, now);
      now := answered + Pause(rc.interval) + w.lag(calls);
      calls := calls + 1;
    }
    DeadlinePasses(w, rc, judge, calls, now);
    return TimedOut, calls, now;
  }

  datatype Execution = Execution(stdout: string, stderr: string, exitCode: int, error: bool)

  function JudgeSuccess(e: Execution): Verdict<string> {
    if !e.error && e.exitCode == 0 then Done(e.stdout) else Again
  }

  /** WaitUntilSucceeds, with the last observation as its timeout message reports it. */
  method WaitUntilSucceeds(w: World<Execution>, rc: Retry)
    returns (r: Result<string>, calls: nat, end: nat, last: Execution)
    requires Advances(w, rc)
    ensures Ended(w, rc, JudgeSuccess, calls, r, end) && !r.Aborted?
    ensures last == if calls == 0 then Execution("", "", 0, false) else w.obs(calls - 1)
  {
    calls, last := 0, Execution("", "", 0, false);
    var now := w.start;
    while now < rc.timeout
      invariant At(w, rc, JudgeSuccess, calls, now)
      invariant last == if calls == 0 then Execution("", "", 0, false) else w.obs(calls - 1)
      decreases rc.timeout - now
    {
      last := w.obs(calls);
      var answered := now + w.cost(calls);
      if !last.error && last.exitCode == 0 {
        LastRound(w, rc, JudgeSuccess, calls, now, Found(last.stdout));
        return Found(last.stdout), calls + 1, answered, last;
      }
      Round(w, rc, JudgeSuccess, calls, now);
      now := answered + Pause(rc.interval) + w.lag(calls);
      calls := calls + 1;
    }
    DeadlinePasses(w, rc, JudgeSuccess, calls, now);
    return TimedOut, calls, now, last;
  }

  datatype UnitStatus = UnitStatus(activeState: string, error: bool)

  function JudgeUnit(u: UnitStatus): Verdict<()> {
    if u.error then Again
    else if u.activeState == "active" then Done(())
    else if u.activeState == "failed" then Abort
    else Again
  }

  method WaitForUnit(w: World<UnitStatus>, rc: Retry) returns (r: Result<()>, calls: nat, end: nat)
    requires Advances(w, rc)
    ensures Ended(w, rc, JudgeUnit, calls, r, end)
  {
    calls := 0;
    var now := w.start;
    while now < rc.timeout
      invariant At(w, rc, JudgeUnit, calls, now)
      decreases rc.timeout - now
    {
      var resp := w.obs(calls);
      var answered := now + w.cost(calls);
      if !resp.error {
        if resp.activeState == "active" {
          LastRound(w, rc, JudgeUnit, calls, now, Found(()));
          return Found(()), calls + 1, answered;
        }
        if resp.activeState == "failed" {
          LastRound(w, rc, JudgeUnit, calls, now, Aborted);
          return Aborted, calls + 1, answered;
        }
      }
      Round(w, rc, JudgeUnit, calls, now);
      now := answered + Pause(rc.interval) + w.lag(calls);
      calls := calls + 1;
    }
    DeadlinePasses(w, rc, JudgeUnit, calls, now);
    return TimedOut, calls, now;
  }

  datatype Journal = Journal(lines: seq<string>, error: bool)

  /** The first matching line. The regular expression is an arbitrary predicate. */
  function FirstMatch(lines: seq<string>, matches: string -> bool): Option<string> {
    if lines == [] then None
    else if matches(lines[0]) then Some(lines[0])
    else FirstMatch(lines[1..], matches)
  }

  function JudgeJournal(j: Journal, matches: string -> bool): Verdict<string> {
    if j.error then Again
    else
      var line := FirstMatch(j.lines, matches);
      if line.Some? then Done(line.value) else Again
  }

  /** The inner loop. */
  method FindLine(lines: seq<string>, matches: string -> bool) returns (line: Option<string>)
    ensures line == FirstMatch(lines, matches)
  {
    for i := 0 to |lines|
      invariant FirstMatch(lines, matches) == FirstMatch(lines[i..], matches)
    {
      if matches(lines[i]) {
        return Some(lines[i]);
      }
    }
    return None;
  }

  function JournalJudge(matches: string -> bool): Journal -> Verdict<string> {
    (j: Journal) => JudgeJournal(j, matches)
  }

  method WaitForLog(w: World<Journal>, rc: Retry, matches: string -> bool) returns (r: Result<string>, calls: nat, end: nat)
    requires Advances(w, rc)
    ensures Ended(w, rc, JournalJudge(matches), calls, r, end) && !r.Aborted?
  {
    ghost var judge := JournalJudge(matches);
    calls := 0;
    var now := w.start;
    while now < rc.timeout
      invariant At(w, rc, judge, calls, now)
      decreases rc.timeout - now
    {
      var journal := w.obs(calls);
      var answered := now + w.cost(calls);
      if !journal.error {
        var line := FindLine(journal.lines, matches);
        if line.Some? {
          LastRound(w, rc, judge, calls, now, Found(line.value));
          return Found(line.value), calls + 1, answered;
        }
      }
      Round(w, rc, judge, calls, now);
      now := answered + Pause(rc.interval) + w.lag(calls);
      calls := calls + 1;
    }
    DeadlinePasses(w, rc, judge, calls, now);
    return TimedOut, calls, now;
  }

  function JudgeOutput(e: Execution, matcher: string -> bool): Verdict<string> {
    if !e.error && e.exitCode == 0 && matcher(e.stdout) then Done(e.stdout) else Again
  }

  method WaitUntilOutput(w: World<Execution>, rc: Retry, matcher: string -> bool) returns (r: Result<string>, calls: nat, end: nat)
    requires Advances(w, rc)
    ensures Ended(w, rc, (e: Execution) => JudgeOutput(e, matcher), calls, r, end)
  {
    r, calls, end := Poll(w, rc, (e: Execution) => JudgeOutput(e, matcher));
  }

  datatype Answer = Answer(yes: bool, error: bool)

  /** An open port, or a file that exists; an error is no answer. */
  function JudgeYes(a: Answer): Verdict<()> {
    if !a.error && a.yes then Done(()) else Again
  }

  function JudgeNo(a: Answer): Verdict<()> {
    if !a.error && !a.yes then Done(()) else Again
  }

  method WaitForOpenPort(w: World<Answer>, rc: Retry) returns (r: Result<()>, calls: nat, end: nat)
    requires Advances(w, rc)
    ensures Ended(w, rc, JudgeYes, calls, r, end)
  {
    r, calls, end := Poll(w, rc, JudgeYes);
  }

  method WaitForClosedPort(w: World<Answer>, rc: Retry) returns (r: Result<()>, calls: nat, end: nat)
    requires Advances(w, rc)
    ensures Ended(w, rc, JudgeNo, calls, r, end)
  {
    r, calls, end := Poll(w, rc, JudgeNo);
  }

  datatype Response = Response(status: int, body: string, error: bool)

  function JudgeHTTP(resp: Response, status: int, bodyContains: string): Verdict<Response> {
    if !resp.error && resp.status == status && (bodyContains == "" || Contains(resp.body, bodyContains)) then Done(resp)
    else Again
  }

  method WaitForHTTP(w: World<Response>, rc: Retry, status: int, bodyContains: string)
    returns (r: Result<Response>, calls: nat, end: nat)
    requires Advances(w, rc)
    ensures Ended(w, rc, (resp: Response) => JudgeHTTP(resp, status, bodyContains), calls, r, end)
  {
    r, calls, end := Poll(w, rc, (resp: Response) => JudgeHTTP(resp, status, bodyContains));
  }

  // ----- The retry options -----

  function LastTimeout(opts: seq<RetryOption>): int {
    if opts == [] then DEFAULT_RETRY.timeout
    else if Last(opts).Timeout? then Last(opts).d
    else LastTimeout(Front(opts))
  }

  function LastInterval(opts: seq<RetryOption>): int {
    if opts == [] then DEFAULT_RETRY.interval
    else if Last(opts).Interval? then Last(opts).d
    else LastInterval(Front(opts))
  }

  /** The last option of each kind counts, whatever the order between the kinds. */
  method ApplyRetryOpts(opts: seq<RetryOption>) returns (rc: Retry)
    ensures rc == Retry(LastTimeout(opts), LastInterval(opts))
  {
    rc := DEFAULT_RETRY;
    for i := 0 to |opts|
      invariant rc == Retry(LastTimeout(opts[..i]), LastInterval(opts[..i]))
    {
      assert Front(opts[..i + 1]) == opts[..i];
      match opts[i]
      case Timeout(d) => rc := rc.(timeout := d);
      case Interval(d) => rc := rc.(interval := d);
    }
    assert opts[..|opts|] == opts;
  }

  /** An option that no later one of its kind follows is the one that counts, and without any the timeout is
      a minute and the interval a second. */
  lemma RetryMeans(opts: seq<RetryOption>, i: nat)
    ensures i < |opts| && opts[i].Timeout? && (forall j :: i < j < |opts| ==> opts[j].Interval?) ==> LastTimeout(opts) == opts[i].d
    ensures i < |opts| && opts[i].Interval? && (forall j :: i < j < |opts| ==> opts[j].Timeout?) ==> LastInterval(opts) == opts[i].d
    ensures (forall o :: o in opts ==> o.Interval?) ==> LastTimeout(opts) == 60_000_000_000
    ensures (forall o :: o in opts ==> o.Timeout?) ==> LastInterval(opts) == 1_000_000_000
  {
    if opts != [] {
      assert Last(opts) in opts && forall o :: o in Front(opts) ==> o in opts;
      RetryMeans(Front(opts), i);
    }
  }

  // ----- What every such loop promises -----

  /** The outcome, the number of calls and the end are determined by the world. */
  lemma EndedIsUnique<T, R>(w: World<T>, rc: Retry, judge: T -> Verdict<R>, c1: nat, r1: Result<R>, e1: nat,
                            c2: nat, r2: Result<R>, e2: nat)
    requires Ended(w, rc, judge, c1, r1, e1) && Ended(w, rc, judge, c2, r2, e2)
    ensures (c1, r1, e1) == (c2, r2, e2)
  {
    if c1 < c2 {
      EndsOnce(w, rc, judge, c1, r1, e1, c2, r2, e2);
    } else if c2 < c1 {
      EndsOnce(w, rc, judge, c2, r2, e2, c1, r1, e1);
    }
  }

  lemma EndsOnce<T, R>(w: World<T>, rc: Retry, judge: T -> Verdict<R>, c1: nat, r1: Result<R>, e1: nat,
                       c2: nat, r2: Result<R>, e2: nat)
    requires Ended(w, rc, judge, c1, r1, e1) && Ended(w, rc, judge, c2, r2, e2)
    ensures c1 >= c2
  {
    if c1 < c2 {
      ClockMonotone(w, rc.interval, c1, c2 - 1);
      if c1 > 0 {
        UndecidedAt(w, rc, judge, c2 - 1, c1 - 1);
      }
    }
  }

  /** An observation decides the loop: it is made before the deadline, and none before it does. */
  ghost predicate Decides<T, R>(w: World<T>, rc: Retry, judge: T -> Verdict<R>, k: nat) {
    && Clock(w, rc.interval, k) < rc.timeout
    && !judge(w.obs(k)).Again?
    && forall j :: 0 <= j < k ==> judge(w.obs(j)).Again?
  }

  /** The loop returns the first observation that decides, and reports a timeout exactly if no
      observation before the deadline does. */
  lemma FirstObservationDecides<T, R>(w: World<T>, rc: Retry, judge: T -> Verdict<R>, calls: nat, r: Result<R>, end: nat)
    requires Ended(w, rc, judge, calls, r, end)
    ensures r.TimedOut? <==> forall k: nat :: !Decides(w, rc, judge, k)
    ensures !r.TimedOut? ==> calls > 0 && Decides(w, rc, judge, calls - 1)
    ensures !r.TimedOut? ==> judge(w.obs(calls - 1)) == if r.Found? then Done(r.value) else Abort
  {
    if r.TimedOut? {
      forall k: nat ensures !Decides(w, rc, judge, k) {
        if k >= calls {
          ClockMonotone(w, rc.interval, calls, k);
        } else {
          UndecidedAt(w, rc, judge, calls, k);
        }
      }
    } else {
      forall j | 0 <= j < calls - 1 ensures judge(w.obs(j)).Again? {
        UndecidedAt(w, rc, judge, calls - 1, j);
      }
      assert Decides(w, rc, judge, calls - 1);
    }
  }

  /** What was observed before the call that decided, or before the deadline, decided nothing. */
  lemma NothingBefore<T, R>(w: World<T>, rc: Retry, judge: T -> Verdict<R>, calls: nat, r: Result<R>, end: nat)
    requires Ended(w, rc, judge, calls, r, end)
    ensures forall k :: 0 <= k < (if r.TimedOut? then calls else calls - 1) ==> judge(w.obs(k)).Again?
  {
    var undecided := if r.TimedOut? then calls else calls - 1;
    forall k | 0 <= k < undecided ensures judge(w.obs(k)).Again? {
      UndecidedAt(w, rc, judge, undecided, k);
    }
  }

  // ----- What each loop waits for -----

  /** A command that ran and exited with zero; its output is what is returned. */
  lemma SuccessMeans(w: World<Execution>, rc: Retry, calls: nat, r: Result<string>, end: nat)
    requires Ended(w, rc, JudgeSuccess, calls, r, end)
    ensures r.Found? ==> w.obs(calls - 1) == Execution(r.value, w.obs(calls - 1).stderr, 0, false)
    ensures forall k :: 0 <= k < (if r.Found? then calls - 1 else calls) ==> w.obs(k).error || w.obs(k).exitCode != 0
  {
    NothingBefore(w, rc, JudgeSuccess, calls, r, end);
  }

  /** The same, with output that the matcher accepts. */
  lemma OutputMeans(w: World<Execution>, rc: Retry, matcher: string -> bool, calls: nat, r: Result<string>, end: nat)
    requires Ended(w, rc, (e: Execution) => JudgeOutput(e, matcher), calls, r, end)
    ensures r.Found? ==> matcher(r.value) && w.obs(calls - 1) == Execution(r.value, w.obs(calls - 1).stderr, 0, false)
    ensures forall k :: 0 <= k < (if r.Found? then calls - 1 else calls) ==>
      w.obs(k).error || w.obs(k).exitCode != 0 || !matcher(w.obs(k).stdout)
  {
    NothingBefore(w, rc, (e: Execution) => JudgeOutput(e, matcher), calls, r, end);
  }

  /** An active unit; a failed one ends the wait, and any other state or an error goes on. */
  lemma UnitMeans(w: World<UnitStatus>, rc: Retry, calls: nat, r: Result<()>, end: nat)
    requires Ended(w, rc, JudgeUnit, calls, r, end)
    ensures r.Found? ==> w.obs(calls - 1) == UnitStatus("active", false)
    ensures r.Aborted? ==> w.obs(calls - 1) == UnitStatus("failed", false)
    ensures forall k :: 0 <= k < (if r.TimedOut? then calls else calls - 1) ==>
      w.obs(k).error || (w.obs(k).activeState != "active" && w.obs(k).activeState != "failed")
  {
    NothingBefore(w, rc, JudgeUnit, calls, r, end);
  }

  /** An answer, the awaited one; an error is neither. */
  lemma PortMeans(w: World<Answer>, rc: Retry, open: bool, calls: nat, r: Result<()>, end: nat)
    requires Ended(w, rc, if open then JudgeYes else JudgeNo, calls, r, end)
    ensures r.Found? ==> w.obs(calls - 1) == Answer(open, false)
    ensures forall k :: 0 <= k < (if r.Found? then calls - 1 else calls) ==> w.obs(k) != Answer(open, false)
  {
    NothingBefore(w, rc, if open then JudgeYes else JudgeNo, calls, r, end);
  }

  /** A response of the wanted status, and with the wanted text in its body if one is wanted. */
  lemma ResponseMeans(w: World<Response>, rc: Retry, status: int, text: string, calls: nat, r: Result<Response>, end: nat)
    requires Ended(w, rc, (resp: Response) => JudgeHTTP(resp, status, text), calls, r, end)
    ensures r.Found? ==> r.value == w.obs(calls - 1) && !r.value.error && r.value.status == status
    ensures r.Found? && text != "" ==> exists before, after :: r.value.body == before + text + after
    ensures forall k, before, after :: 0 <= k < (if r.Found? then calls - 1 else calls) ==>
      w.obs(k).error || w.obs(k).status != status || w.obs(k).body != before + text + after
  {
    NothingBefore(w, rc, (resp: Response) => JudgeHTTP(resp, status, text), calls, r, end);
    if r.Found? && text != "" {
      var before, after := ContainsSplits(r.value.body, text);
    }
    forall k, before: string, after | 0 <= k < (if r.Found? then calls - 1 else calls) && w.obs(k).body == before + text + after
      ensures w.obs(k).error || w.obs(k).status != status
    {
      SplitContains(before, text, after);
    }
  }

  lemma {:induction false} ContainsSplits(s: string, sub: string) returns (before: string, after: string)
    requires Contains(s, sub)
    ensures s == before + sub + after
  {
    if sub <= s {
      before, after := "", s[|sub|..];
    } else {
      before, after := ContainsSplits(s[1..], sub);
      before := [s[0]] + before;
    }
  }

  lemma {:induction false} SplitContains(before: string, sub: string, after: string)
    ensures Contains(before + sub + after, sub)
  {
    var s := before + sub + after;
    if before == "" {
      assert s == sub + after;
    } else {
      assert s[1..] == before[1..] + sub + after;
      SplitContains(before[1..], sub, after);
    }
  }

  predicate IsFirst(lines: seq<string>, matches: string -> bool, i: nat, line: string) {
    i < |lines| && lines[i] == line && forall j :: 0 <= j < i ==> !matches(lines[j])
  }

  ghost predicate HasFirst(lines: seq<string>, matches: string -> bool, line: string) {
    exists i :: IsFirst(lines, matches, i, line)
  }

  /** The first line that matches in a journal that could be read; the lines before it do not match. */
  lemma LogMeans(w: World<Journal>, rc: Retry, matches: string -> bool, calls: nat, r: Result<string>, end: nat)
    requires Ended(w, rc, JournalJudge(matches), calls, r, end)
    ensures r.Found? ==> matches(r.value) && !w.obs(calls - 1).error
    ensures r.Found? ==> HasFirst(w.obs(calls - 1).lines, matches, r.value)
    ensures forall k, line :: 0 <= k < (if r.Found? then calls - 1 else calls) && line in w.obs(k).lines ==>
      w.obs(k).error || !matches(line)
  {
    NothingBefore(w, rc, JournalJudge(matches), calls, r, end);
    if r.Found? {
      var i := FirstMatchAt(w.obs(calls - 1).lines, matches);
      assert IsFirst(w.obs(calls - 1).lines, matches, i, r.value);
    }
    forall k, line | 0 <= k < (if r.Found? then calls - 1 else calls) && line in w.obs(k).lines && !w.obs(k).error
      ensures !matches(line)
    {
      NoMatch(w.obs(k).lines, matches, line);
    }
  }

  lemma {:induction false} FirstMatchAt(lines: seq<string>, matches: string -> bool) returns (i: nat)
    requires FirstMatch(lines, matches).Some?
    ensures i < |lines| && FirstMatch(lines, matches) == Some(lines[i]) && matches(lines[i])
    ensures forall j :: 0 <= j < i ==> !matches(lines[j])
  {
    if matches(lines[0]) {
      i := 0;
    } else {
      i := FirstMatchAt(lines[1..], matches);
      i := i + 1;
    }
  }

  lemma {:induction false} NoMatch(lines: seq<string>, matches: string -> bool, line: string)
    requires FirstMatch(lines, matches).None? && line in lines
    ensures !matches(line)
  {
    if line != lines[0] {
      NoMatch(lines[1..], matches, line);
    }
  }

  /** The timeout divided by the interval, rounded up. */
  function CallBound(rc: Retry): nat
    requires rc.interval > 0
  {
    if rc.timeout <= 0 then 0 else (rc.timeout - 1) / rc.interval + 1
  }

  /** At most that many calls are made, and as many by a loop that sees nothing when calls and pauses
      take no extra time. */
  lemma CallsAreBounded<T, R>(w: World<T>, rc: Retry, judge: T -> Verdict<R>, calls: nat, r: Result<R>, end: nat)
    requires Ended(w, rc, judge, calls, r, end) && rc.interval > 0
    ensures calls <= CallBound(rc)
    ensures r.TimedOut? && w.start == 0 && (forall k :: w.cost(k) + w.lag(k) == 0) ==> calls == CallBound(rc)
  {
    if calls > 0 {
      assert Clock(w, rc.interval, calls - 1) < rc.timeout;
      ClockSteps(w, rc.interval, calls - 1);
      RoundsBelow(calls - 1, rc.interval, rc.timeout - 1);
    }
    if r.TimedOut? && w.start == 0 && forall k :: w.cost(k) + w.lag(k) == 0 {
      ClockExact(w, rc.interval, calls);
      if calls < CallBound(rc) {
        RoundsAbove(calls, rc.interval, rc.timeout - 1);
      }
    }
  }

  lemma {:induction false} ClockExact<T>(w: World<T>, interval: int, k: nat)
    requires interval > 0 && w.start == 0 && forall j :: w.cost(j) + w.lag(j) == 0
    ensures Clock(w, interval, k) == k * interval
  {
    if k > 0 {
      ClockExact(w, interval, k - 1);
    }
  }

  lemma RoundsBelow(k: nat, d: nat, t: nat)
    requires d > 0 && k * d <= t
    ensures k <= t / d
  {
    var q := t / d;
    assert t == d * q + t % d;
    assert (q + 1 - k) * d > 0;
  }

  lemma RoundsAbove(k: nat, d: nat, t: nat)
    requires d > 0 && k <= t / d
    ensures k * d <= t
  {
    assert t == d * (t / d) + t % d;
    assert k * d <= (t / d) * d;
  }

  /** The loop ends before the deadline, plus the longest call, plus the interval and the longest delay
      of a pause. An observation that decides is returned before the deadline plus its own call. */
  lemma EndsInTime<T, R>(w: World<T>, rc: Retry, judge: T -> Verdict<R>, calls: nat, r: Result<R>, end: nat,
                         longest: nat, delay: nat)
    requires Ended(w, rc, judge, calls, r, end)
    requires forall k :: 0 <= k < calls ==> w.cost(k) <= longest && w.lag(k) <= delay
    ensures calls == 0 ==> end == w.start
    ensures calls > 0 ==> end < rc.timeout + longest + Pause(rc.interval) + delay
    ensures !r.TimedOut? ==> end < rc.timeout + longest
  {
    if calls > 0 {
      assert Clock(w, rc.interval, calls - 1) < rc.timeout;
    }
  }
}
