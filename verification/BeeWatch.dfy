/**
 The fork-surviving range watch (core/bee-watch.js): one asynchronous loop raced by a truncate
 listener, a close call, callbacks that may hang or throw, a watcher that may throw and a backoff.

 Code between two awaits is one atomic step. `Step` says what each step does to the loop's closure
 variables; class `RangeWatch` performs the same steps on mutable fields, in the order the source
 writes them; the lemmas in between speak about every run of enabled steps.
 */
module BeeWatch {
  import opened Wrappers

  /** Where the loop is suspended. */
  datatype Pc =
    | Top                      // about to test `stopped()` and arm
    | InChange(call: nat)      // awaiting a callback, raced against the fork signal
    | Parked                   // awaiting the watcher's next value
    | Ticked                   // a value was yielded, the loop has not resumed yet
    | Returning                // left the iteration early, the iterator is being returned
    | Closing(failed: bool)    // awaiting the close of this iteration's watcher
    | Backoff                  // awaiting the retry sleep
    | Leaving                  // in the final block, awaiting a last close
    | Exited

  /** The watcher of the current iteration; `held` says the variable `watcher` still refers to it. */
  datatype Watcher = Watcher(held: bool, open: bool, deaf: bool, seen: nat)

  /** One call of onChange or onResync. */
  datatype Call = Call(at: nat, resync: bool, abandoned: bool, done: bool)

  datatype Report = WatchError(at: nat) | ChangeError(call: nat)

  /** What an observer sees: a clock, the latest change a callback is owed for, callbacks, reports, arms. */
  datatype Log = Log(now: nat, changeAt: int, calls: seq<Call>, reports: seq<Report>, attempts: nat, arms: nat)

  datatype Config = Config(catchUp: bool, patient: bool)  // patient: retryMs > 0

  datatype State = State(
    closed: bool,
    ext: bool,           // bee.closed or shouldStop()
    forked: bool,
    resync: bool,
    listening: bool,
    signal: bool,        // signalFork is set: the fork signal is unresolved
    wake: Option<nat>,   // the sleep that an early wake would resolve
    naps: nat,
    watcher: Watcher,
    version: nat,        // the bee's
    pc: Pc,
    log: Log)

  datatype Event =
    | Append | Truncate(version: nat) | HostStop(flag: bool) | Close
    | CallReturn(call: nat) | CallThrow(call: nat) | Tick | SleepFire(nap: nat)
    | Arm(ok: bool) | Abandon | TickResume | IterEnd | IterThrow | ReturnDone(threw: bool)
    | CloseDone | LeaveDone

  /** A continuation of the loop itself, as opposed to something the world does to it. */
  predicate Own(e: Event) {
    e.Arm? || e.Abandon? || e.TickResume? || e.IterEnd? || e.IterThrow? || e.ReturnDone? || e.CloseDone? || e.LeaveDone?
  }

  function Init(c: Config, version: nat): State {
    State(false, false, false, c.catchUp, true, true, None, 0, Watcher(false, false, false, 0), version, Top,
          Log(1, if c.catchUp then 0 else -1, [], [], 0, 0))
  }

  predicate Stopped(s: State) { s.closed || s.ext }

  predicate QuietErrors(s: State) { s.closed || s.forked }

  /** The watcher has something to yield: it is deaf for ever once the log was truncated under it. */
  predicate TickDue(s: State) { s.watcher.open && !s.watcher.deaf && s.version > s.watcher.seen }

  predicate Enabled(s: State, e: Event) {
    match e
    case Append => true
    case Truncate(_) => true
    case HostStop(_) => true
    case Close => true
    case CallReturn(k) => k < |s.log.calls| && !s.log.calls[k].done
    case CallThrow(k) => k < |s.log.calls| && !s.log.calls[k].done
    case Tick => s.pc.Parked? && TickDue(s)
    case SleepFire(n) => n < s.naps
    case Arm(_) => s.pc.Top?
    case Abandon => s.pc.InChange? && !s.signal
    case TickResume => s.pc.Ticked?
    case IterEnd => s.pc.Parked?
    case IterThrow => s.pc.Parked?
    case ReturnDone(_) => s.pc.Returning?
    case CloseDone => s.pc.Closing?
    case LeaveDone => s.pc.Leaving?
  }

  // ---- what each step does --------------------------------------------------------------------

  function Release(w: Watcher): Watcher {
    if w.held then w.(held := false, open := false) else w
  }

  /** A change the watch owes a callback for: from the first successful arm on, or always with catchUp. */
  function Changed(c: Config, log: Log): Log {
    log.(changeAt := if log.arms > 0 || c.catchUp then log.now else log.changeAt)
  }

  function ReportWatch(s: State): Log {
    if QuietErrors(s) then s.log else s.log.(reports := s.log.reports + [WatchError(s.log.now)])
  }

  function OnTruncate(s: State): State {
    s.(forked := true, resync := true, signal := false, watcher := Release(s.watcher),
       wake := None, pc := if s.wake.Some? then Top else s.pc)
  }

  function OnClose(s: State): State {
    if s.closed then s
    else s.(closed := true, listening := false, signal := false, watcher := Release(s.watcher),
            wake := None, pc := if s.wake.Some? then Top else s.pc)
  }

  function Begin(s: State, resync: bool): State {
    s.(log := s.log.(calls := s.log.calls + [Call(s.log.now, resync, false, false)]), pc := InChange(|s.log.calls|))
  }

  function EnterBackoff(c: Config, s: State): State {
    if !c.patient || s.forked || Stopped(s) then s.(pc := Top)
    else s.(pc := Backoff, wake := Some(s.naps), naps := s.naps + 1)
  }

  function Leave(s: State): State {
    s.(listening := false, watcher := Release(s.watcher), pc := if s.watcher.held then Leaving else Exited)
  }

  /** The armed watcher first, the catch-up second. */
  function Listen(s: State): State {
    var t := s.(watcher := Watcher(true, true, false, s.version), log := s.log.(arms := s.log.arms + 1));
    if t.resync then Begin(t.(resync := false), true) else t.(pc := Parked)
  }

  /** One turn of the `while`: stop, or arm a new watcher whose baseline is the bee as it is now. */
  function TopOfLoop(c: Config, s: State, ok: bool): State {
    if Stopped(s) then Leave(s)
    else
      var log := s.log.(attempts := s.log.attempts + 1);
      var t := s.(forked := false, signal := true, log := log);
      if ok then Listen(t) else EnterBackoff(c, t.(log := ReportWatch(t)))
  }

  /** Callback `k` settles; the loop resumes if it was still waiting for it. */
  function Settle(s: State, k: nat, threw: bool): State
    requires k < |s.log.calls|
  {
    var told := threw && !s.log.calls[k].abandoned && !QuietErrors(s);
    s.(log := s.log.(calls := s.log.calls[k := s.log.calls[k].(done := true)],
                     reports := if told then s.log.reports + [ChangeError(k)] else s.log.reports),
       pc := if s.pc == InChange(k) then Parked else s.pc)
  }

  function EndIteration(s: State, failed: bool): State {
    s.(watcher := s.watcher.(held := false, open := false), pc := Closing(failed))
  }

  function AfterClose(c: Config, s: State, failed: bool): State {
    if Stopped(s) then Leave(s)
    else EnterBackoff(c, s.(log := if failed then ReportWatch(s) else s.log, resync := true))
  }

  /** What the bee, its host, the callbacks and the timers do. */
  function WorldStep(c: Config, s: State, e: Event): State
    requires Enabled(s, e) && !Own(e)
  {
    match e
    case Append => s.(version := s.version + 1, log := Changed(c, s.log))
    case Truncate(v) =>
      var t := s.(version := v, watcher := s.watcher.(deaf := true), log := Changed(c, s.log));
      if s.listening then OnTruncate(t) else t
    case HostStop(b) => s.(ext := b)
    case Close => OnClose(s)
    case CallReturn(k) => Settle(s, k, false)
    case CallThrow(k) => Settle(s, k, true)
    case Tick => s.(watcher := s.watcher.(seen := s.version), pc := Ticked)
    case SleepFire(n) => if s.wake == Some(n) then s.(wake := None, pc := Top) else s
  }

  /** The fork signal wins its race: the loop goes on without the callback. */
  function AbandonCall(s: State): State
    requires s.pc.InChange?
  {
    if s.pc.call < |s.log.calls| then
      var call := s.log.calls[s.pc.call].(abandoned := true);
      s.(log := s.log.(calls := s.log.calls[s.pc.call := call]), pc := Parked)
    else s
  }

  /** What the loop does each time it resumes, up to its next await. */
  function LoopStep(c: Config, s: State, e: Event): State
    requires Enabled(s, e) && Own(e)
  {
    match e
    case Arm(ok) => TopOfLoop(c, s, ok)
    case Abandon => AbandonCall(s)
    case TickResume =>
      if Stopped(s) || !s.watcher.held then s.(pc := Returning, watcher := s.watcher.(open := false))
      else Begin(s, false)
    case IterEnd => EndIteration(s, false)
    case IterThrow => EndIteration(s, true)
    case ReturnDone(threw) => EndIteration(s, threw)
    case CloseDone => AfterClose(c, s, s.pc.failed)
    case LeaveDone => s.(pc := Exited)
  }

  function Step(c: Config, s: State, e: Event): State
    requires Enabled(s, e)
  {
    var t := if Own(e) then LoopStep(c, s, e) else WorldStep(c, s, e);
    t.(log := t.log.(now := s.log.now + 1))
  }

  // ---- the invariant --------------------------------------------------------------------------

  /** Some callback that is not abandoned began after the latest owed change. */
  predicate Covered(log: Log) {
    exists k :: 0 <= k < |log.calls| && !log.calls[k].abandoned && log.calls[k].at > log.changeAt
  }

  predicate Iterating(pc: Pc) { pc.InChange? || pc.Parked? || pc.Ticked? }

  /** How the closure variables hang together at every suspension point. */
  predicate Shape(c: Config, s: State) {
    var w := s.watcher;
    && s.log.changeAt < s.log.now
    && (s.log.changeAt >= 0 ==> s.log.arms > 0 || c.catchUp)
    && (w.open ==> Iterating(s.pc) && w.held && !w.deaf && w.seen <= s.version)
    && (w.held ==> s.signal && (w.open || s.pc.Returning?))
    && s.signal == !(s.forked || s.closed)
    && (s.wake.Some? <==> s.pc.Backoff?)
    && (s.wake.Some? ==> s.wake.value < s.naps && s.signal)
    && (!s.listening ==> s.closed || s.pc.Leaving? || s.pc.Exited?)
    && (s.pc.InChange? ==>
          s.pc.call < |s.log.calls| && !s.log.calls[s.pc.call].done && !s.log.calls[s.pc.call].abandoned)
    && (s.pc.Top? || s.pc.Backoff? ==> (s.log.arms > 0 || c.catchUp ==> s.resync))
  }

  /** While the loop waits on a live watcher, an uncovered change is one the watcher will still yield. */
  predicate NothingLost(s: State) {
    (s.pc.InChange? || s.pc.Parked?) && s.watcher.open && s.log.changeAt >= 0 ==>
      Covered(s.log) || s.version > s.watcher.seen
  }

  /** A callback whose error was reported had settled without being abandoned, and stays so. */
  predicate ReportsHonest(log: Log) {
    forall r :: r in log.reports && r.ChangeError? ==>
      r.call < |log.calls| && log.calls[r.call].done && !log.calls[r.call].abandoned
  }

  lemma ArmShape(c: Config, s: State, ok: bool)
    requires Shape(c, s) && Enabled(s, Arm(ok))
    ensures Shape(c, Step(c, s, Arm(ok)))
  {}

  lemma CloseDoneShape(c: Config, s: State)
    requires Shape(c, s) && Enabled(s, CloseDone)
    ensures Shape(c, Step(c, s, CloseDone))
  {}

  lemma ResumeShape(c: Config, s: State, e: Event)
    requires Shape(c, s) && Enabled(s, e) && Own(e) && !e.Arm? && !e.CloseDone?
    ensures Shape(c, Step(c, s, e))
  {}

  lemma InterruptShape(c: Config, s: State, e: Event)
    requires Shape(c, s) && Enabled(s, e) && (e.Truncate? || e.Close?)
    ensures Shape(c, Step(c, s, e))
  {}

  lemma SettledKeepsShape(c: Config, s: State, k: nat, threw: bool)
    requires Shape(c, s) && k < |s.log.calls| && !s.log.calls[k].done
    ensures Shape(c, Settle(s, k, threw))
  {
    var t := Settle(s, k, threw);
    assert |t.log.calls| == |s.log.calls|;
    if s.pc.InChange? && s.pc.call != k { assert t.log.calls[s.pc.call] == s.log.calls[s.pc.call]; }
  }

  lemma SettleShape(c: Config, s: State, e: Event)
    requires Shape(c, s) && Enabled(s, e) && (e.CallReturn? || e.CallThrow?)
    ensures Shape(c, Step(c, s, e))
  {
    SettledKeepsShape(c, s, e.call, e.CallThrow?);
  }

  lemma OtherShape(c: Config, s: State, e: Event)
    requires Shape(c, s) && Enabled(s, e) && (e.Append? || e.HostStop? || e.Tick? || e.SleepFire?)
    ensures Shape(c, Step(c, s, e))
  {}

  lemma StepShape(c: Config, s: State, e: Event)
    requires Shape(c, s) && Enabled(s, e)
    ensures Shape(c, Step(c, s, e))
  {
    match e
    case Arm(ok) => ArmShape(c, s, ok);
    case CloseDone => CloseDoneShape(c, s);
    case Truncate(_) => InterruptShape(c, s, e);
    case Close => InterruptShape(c, s, e);
    case CallReturn(_) => SettleShape(c, s, e);
    case CallThrow(_) => SettleShape(c, s, e);
    case _ => if Own(e) { ResumeShape(c, s, e); } else { OtherShape(c, s, e); }
  }

  /** Calls are only added; settled ones never change, and only an awaited one can be abandoned. */
  predicate Extends(before: seq<Call>, after: seq<Call>, abandon: bool) {
    && |before| <= |after|
    && (forall k :: 0 <= k < |before| ==>
          && after[k].at == before[k].at
          && (before[k].done ==> after[k] == before[k])
          && (!abandon ==> after[k].abandoned == before[k].abandoned))
  }

  /** What a step does to the calls: begins one, settles one, abandons the awaited one, or nothing. */
  predicate CallsMove(s: State, e: Event, calls: seq<Call>) {
    if e.Arm? || e.TickResume? then
      calls == s.log.calls || exists resync :: calls == s.log.calls + [Call(s.log.now, resync, false, false)]
    else if e.CallReturn? || e.CallThrow? then
      e.call < |s.log.calls| && calls == s.log.calls[e.call := s.log.calls[e.call].(done := true)]
    else if e.Abandon? then
      && s.pc.InChange? && s.pc.call < |s.log.calls|
      && calls == s.log.calls[s.pc.call := s.log.calls[s.pc.call].(abandoned := true)]
    else
      calls == s.log.calls
  }

  lemma ArmCallsMove(c: Config, s: State, ok: bool)
    requires Enabled(s, Arm(ok))
    ensures CallsMove(s, Arm(ok), Step(c, s, Arm(ok)).log.calls)
  {
    var calls := Step(c, s, Arm(ok)).log.calls;
    assert calls != s.log.calls ==> calls == s.log.calls + [Call(s.log.now, true, false, false)];
  }

  lemma ResumeCallsMove(c: Config, s: State)
    requires Enabled(s, TickResume)
    ensures CallsMove(s, TickResume, Step(c, s, TickResume).log.calls)
  {
    var calls := Step(c, s, TickResume).log.calls;
    assert calls != s.log.calls ==> calls == s.log.calls + [Call(s.log.now, false, false, false)];
  }

  lemma SettleCallsMove(c: Config, s: State, e: Event)
    requires Enabled(s, e) && (e.CallReturn? || e.CallThrow?)
    ensures CallsMove(s, e, Step(c, s, e).log.calls)
  {}

  lemma StepCallsMove(c: Config, s: State, e: Event)
    requires Shape(c, s) && Enabled(s, e)
    ensures CallsMove(s, e, Step(c, s, e).log.calls)
  {
    match e
    case Arm(ok) => ArmCallsMove(c, s, ok);
    case TickResume => ResumeCallsMove(c, s);
    case CallReturn(_) => SettleCallsMove(c, s, e);
    case CallThrow(_) => SettleCallsMove(c, s, e);
    case _ =>
  }

  lemma MoveExtends(c: Config, s: State, e: Event, calls: seq<Call>)
    requires Shape(c, s) && Enabled(s, e) && CallsMove(s, e, calls)
    ensures Extends(s.log.calls, calls, e.Abandon?)
  {}

  lemma StepExtends(c: Config, s: State, e: Event)
    requires Shape(c, s) && Enabled(s, e)
    ensures Extends(s.log.calls, Step(c, s, e).log.calls, e.Abandon?)
  {
    StepCallsMove(c, s, e);
    MoveExtends(c, s, e, Step(c, s, e).log.calls);
  }

  lemma CoveredStays(before: Log, after: Log)
    requires Covered(before) && Extends(before.calls, after.calls, false) && after.changeAt == before.changeAt
    ensures Covered(after)
  {
    var k :| 0 <= k < |before.calls| && !before.calls[k].abandoned && before.calls[k].at > before.changeAt;
    assert !after.calls[k].abandoned && after.calls[k].at > after.changeAt;
  }

  lemma BegunCovers(log: Log)
    requires |log.calls| > 0 && var last := log.calls[|log.calls| - 1]; !last.abandoned && last.at > log.changeAt
    ensures Covered(log)
  {
    assert !log.calls[|log.calls| - 1].abandoned;
  }

  /** An arm leaves the loop waiting only behind the catch-up call it has just begun, or with nothing owed. */
  lemma ArmNothingLost(c: Config, s: State, ok: bool)
    requires Shape(c, s) && Enabled(s, Arm(ok))
    ensures NothingLost(Step(c, s, Arm(ok)))
  {
    var t := Step(c, s, Arm(ok));
    if t.pc.InChange? { BegunCovers(t.log); }
  }

  lemma TickNothingLost(c: Config, s: State)
    requires Shape(c, s) && Enabled(s, TickResume)
    ensures NothingLost(Step(c, s, TickResume))
  {
    var t := Step(c, s, TickResume);
    if t.pc.InChange? { BegunCovers(t.log); }
  }

  lemma SettleNothingLost(c: Config, s: State, e: Event)
    requires Shape(c, s) && NothingLost(s) && Enabled(s, e) && (e.CallReturn? || e.CallThrow?)
    ensures NothingLost(Step(c, s, e))
  {
    var t := Step(c, s, e);
    StepExtends(c, s, e);
    if Covered(s.log) { CoveredStays(s.log, t.log); }
  }

  /** The rest begin and settle nothing: a change is still due, or they leave no live watcher. */
  lemma OtherNothingLost(c: Config, s: State, e: Event)
    requires Shape(c, s) && NothingLost(s) && Enabled(s, e)
    requires !e.Arm? && !e.TickResume? && !e.CallReturn? && !e.CallThrow?
    ensures NothingLost(Step(c, s, e))
  {
    var t := Step(c, s, e);
    if t.log.calls == s.log.calls && t.log.changeAt == s.log.changeAt {
      assert Covered(s.log) ==> Covered(t.log) by {
        if Covered(s.log) { CoveredStays(s.log, t.log); }
      }
    }
  }

  lemma StepNothingLost(c: Config, s: State, e: Event)
    requires Shape(c, s) && NothingLost(s) && Enabled(s, e)
    ensures NothingLost(Step(c, s, e))
  {
    match e
    case Arm(ok) => ArmNothingLost(c, s, ok);
    case TickResume => TickNothingLost(c, s);
    case CallReturn(_) => SettleNothingLost(c, s, e);
    case CallThrow(_) => SettleNothingLost(c, s, e);
    case _ => OtherNothingLost(c, s, e);
  }

  lemma StepReportsHonest(c: Config, s: State, e: Event)
    requires Shape(c, s) && ReportsHonest(s.log) && Enabled(s, e)
    ensures ReportsHonest(Step(c, s, e).log)
  {
    StepExtends(c, s, e);
    var t := Step(c, s, e);
    forall r | r in t.log.reports && r.ChangeError?
      ensures r.call < |t.log.calls| && t.log.calls[r.call].done && !t.log.calls[r.call].abandoned
    {
      if r !in s.log.reports { assert e == CallThrow(r.call); }
    }
  }

  predicate Inv(c: Config, s: State) {
    Shape(c, s) && NothingLost(s) && ReportsHonest(s.log)
  }

  lemma StepInv(c: Config, s: State, e: Event)
    requires Inv(c, s) && Enabled(s, e)
    ensures Inv(c, Step(c, s, e))
  {
    StepShape(c, s, e);
    StepNothingLost(c, s, e);
    StepReportsHonest(c, s, e);
  }

  // ---- every run ------------------------------------------------------------------------------

  predicate Valid(c: Config, s: State, es: seq<Event>)
    decreases |es|
  {
    es == [] || (Enabled(s, es[0]) && Valid(c, Step(c, s, es[0]), es[1..]))
  }

  function Run(c: Config, s: State, es: seq<Event>): State
    requires Valid(c, s, es)
    decreases |es|
  {
    if es == [] then s else Run(c, Step(c, s, es[0]), es[1..])
  }

  lemma {:induction false} RunInv(c: Config, s: State, es: seq<Event>)
    requires Inv(c, s) && Valid(c, s, es)
    ensures Inv(c, Run(c, s, es))
    decreases |es|
  {
    if es == [] {
    } else {
      StepInv(c, s, es[0]);
      RunInv(c, Step(c, s, es[0]), es[1..]);
    }
  }

  /**
   No lost change. However appends, truncates, errors, hanging callbacks and stops interleave, when the
   loop waits on its watcher and the watcher has nothing to yield, some callback that was not abandoned
   began after the latest change. In particular the loop never waits on a watcher gone deaf.
   */
  lemma NoLostChange(c: Config, version: nat, es: seq<Event>)
    requires Valid(c, Init(c, version), es)
    ensures
      var s := Run(c, Init(c, version), es);
      s.pc.Parked? && s.watcher.open && !TickDue(s) ==>
        !s.watcher.deaf && (s.log.changeAt >= 0 ==> Covered(s.log))
  {
    RunInv(c, Init(c, version), es);
  }

  /** How many own steps may pass before the loop arms again (after a truncate) or exits (after a close). */
  function Rank(pc: Pc): nat {
    match pc
    case InChange(_) => 6
    case Ticked => 5
    case Parked => 4
    case Returning => 4
    case Closing(_) => 3
    case Top => 2
    case Backoff => 2
    case Leaving => 1
    case Exited => 0
  }

  predicate Hurried(s: State) { s.forked || s.closed }

  function OwnSteps(es: seq<Event>): nat {
    if es == [] then 0 else (if Own(es[0]) then 1 else 0) + OwnSteps(es[1..])
  }

  predicate Hastens(s: State, e: Event, t: State) {
    || (t.log.attempts > s.log.attempts && !s.closed)
    || (Hurried(t) && t.log.attempts == s.log.attempts && Rank(t.pc) + OwnSteps([e]) <= Rank(s.pc))
  }

  lemma OwnStepHastens(c: Config, s: State, e: Event)
    requires Shape(c, s) && Hurried(s) && Enabled(s, e) && Own(e)
    ensures Hastens(s, e, Step(c, s, e))
  {
    assert OwnSteps([e]) == 1;
  }

  lemma WorldStepHastens(c: Config, s: State, e: Event)
    requires Shape(c, s) && Hurried(s) && Enabled(s, e) && !Own(e)
    ensures Hastens(s, e, Step(c, s, e))
  {
    assert OwnSteps([e]) == 0;
  }

  /** What a step may do to the observations while a fork is unresolved, and after a close. */
  predicate Silent(s: State, t: State) {
    && t.log.attempts >= s.log.attempts
    && (s.forked && t.log.attempts == s.log.attempts ==> t.forked && t.log.reports == s.log.reports)
    && (s.closed ==> t.closed && t.log.attempts == s.log.attempts && t.log.reports == s.log.reports
                     && |t.log.calls| == |s.log.calls|)
  }

  lemma ArmSilent(c: Config, s: State, ok: bool)
    requires Enabled(s, Arm(ok))
    ensures Silent(s, Step(c, s, Arm(ok)))
  {}

  lemma LoopStepSilent(c: Config, s: State, e: Event)
    requires Enabled(s, e) && Own(e) && !e.Arm?
    ensures Silent(s, Step(c, s, e))
  {}

  lemma WorldStepSilent(c: Config, s: State, e: Event)
    requires Enabled(s, e) && !Own(e)
    ensures Silent(s, Step(c, s, e))
  {}

  lemma StepSilent(c: Config, s: State, e: Event)
    requires Enabled(s, e)
    ensures Silent(s, Step(c, s, e))
  {
    match e
    case Arm(ok) => ArmSilent(c, s, ok);
    case _ => if Own(e) { LoopStepSilent(c, s, e); } else { WorldStepSilent(c, s, e); }
  }

  lemma {:induction false} RunSilent(c: Config, s: State, es: seq<Event>)
    requires Valid(c, s, es)
    ensures Silent(s, Run(c, s, es))
    decreases |es|
  {
    if es == [] {
    } else {
      StepSilent(c, s, es[0]);
      RunSilent(c, Step(c, s, es[0]), es[1..]);
    }
  }

  /** After a truncate or a close, the loop's own steps only bring it closer to an arm or to its end. */
  lemma {:induction false} RunRank(c: Config, s: State, es: seq<Event>)
    requires Shape(c, s) && Hurried(s) && Valid(c, s, es)
    ensures
      var t := Run(c, s, es);
      (t.log.attempts > s.log.attempts && !s.closed) || Rank(t.pc) + OwnSteps(es) <= Rank(s.pc)
    decreases |es|
  {
    if es == [] {
    } else {
      var e, t := es[0], Step(c, s, es[0]);
      if Own(e) { OwnStepHastens(c, s, e); } else { WorldStepHastens(c, s, e); }
      StepShape(c, s, e);
      StepSilent(c, s, e);
      RunSilent(c, t, es[1..]);
      if Hurried(t) { RunRank(c, t, es[1..]); }
      assert OwnSteps(es) == OwnSteps([e]) + OwnSteps(es[1..]);
    }
  }

  /** Arms whose watcher could not be had. */
  function FailedArms(es: seq<Event>): nat {
    if es == [] then 0 else (if es[0] == Arm(false) then 1 else 0) + FailedArms(es[1..])
  }

  lemma StepArms(c: Config, s: State, e: Event)
    requires Enabled(s, e)
    ensures
      var t := Step(c, s, e);
      t.log.attempts - s.log.attempts <= t.log.arms - s.log.arms + FailedArms([e]) && t.log.arms >= s.log.arms
  {
    assert FailedArms([e]) == if e == Arm(false) then 1 else 0;
  }

  lemma {:induction false} RunArms(c: Config, s: State, es: seq<Event>)
    requires Valid(c, s, es)
    ensures
      var t := Run(c, s, es);
      t.log.attempts - s.log.attempts <= t.log.arms - s.log.arms + FailedArms(es) && t.log.arms >= s.log.arms
    decreases |es|
  {
    if es == [] {
    } else {
      StepArms(c, s, es[0]);
      RunArms(c, Step(c, s, es[0]), es[1..]);
      assert FailedArms(es) == FailedArms([es[0]]) + FailedArms(es[1..]);
    }
  }

  /**
   Fork and close progress. Six of the loop's own steps after a truncate it has tried to arm again (or left),
   and unless watching threw it has armed; six after a close it has exited. None of them waits for a
   callback, a sleep or a further change: as long as the loop has not exited, one of them is enabled.
   */
  lemma ForkAndCloseProgress(c: Config, version: nat, before: seq<Event>, after: seq<Event>)
    requires Valid(c, Init(c, version), before) && Valid(c, Run(c, Init(c, version), before), after)
    requires Hurried(Run(c, Init(c, version), before)) && OwnSteps(after) >= 6
    ensures
      var s := Run(c, Init(c, version), before);
      var t := Run(c, s, after);
      && (t.pc.Exited? || (t.log.attempts > s.log.attempts && !s.closed))
      && (FailedArms(after) == 0 ==> t.pc.Exited? || (t.log.arms > s.log.arms && !s.closed))
  {
    var s := Run(c, Init(c, version), before);
    RunInv(c, Init(c, version), before);
    Progresses(c, s, after);
    RunArms(c, s, after);
  }

  lemma Progresses(c: Config, s: State, es: seq<Event>)
    requires Shape(c, s) && Hurried(s) && Valid(c, s, es) && OwnSteps(es) >= 6
    ensures
      var t := Run(c, s, es);
      t.pc.Exited? || (t.log.attempts > s.log.attempts && !s.closed)
  {
    RunRank(c, s, es);
    assert Rank(s.pc) <= 6;
    assert Rank(Run(c, s, es).pc) == 0 ==> Run(c, s, es).pc.Exited?;
  }

  function Next(s: State): Event {
    match s.pc
    case InChange(_) => Abandon
    case Ticked => TickResume
    case Parked => IterEnd
    case Returning => ReturnDone(false)
    case Closing(_) => CloseDone
    case Leaving => LeaveDone
    case _ => Arm(true)
  }

  /** Nothing to wait for: a parked watcher has been closed, so its iteration ends, and the next step can be taken. */
  lemma NeverBlocked(c: Config, version: nat, es: seq<Event>)
    requires Valid(c, Init(c, version), es)
    ensures
      var s := Run(c, Init(c, version), es);
      Hurried(s) ==>
        && (s.pc.Parked? ==> !s.watcher.open)
        && (!s.pc.Exited? ==> Own(Next(s)) && Enabled(s, Next(s)))
  {
    RunInv(c, Init(c, version), es);
  }

  // ---- what is noticed, called and reported ------------------------------------------------------

  lemma ArmOwesNothing(c: Config, s: State, ok: bool)
    requires Enabled(s, Arm(ok))
    ensures Step(c, s, Arm(ok)).log.changeAt == s.log.changeAt
  {}

  lemma LoopOwesNothing(c: Config, s: State, e: Event)
    requires Enabled(s, e) && Own(e) && !e.Arm?
    ensures Step(c, s, e).log.changeAt == s.log.changeAt
  {}

  /** An append or a truncate is owed a callback from the first arm on, or always with catchUp; nothing else is. */
  lemma ChangesAreOwed(c: Config, s: State, e: Event)
    requires Enabled(s, e)
    ensures
      Step(c, s, e).log.changeAt ==
      if (e.Append? || e.Truncate?) && (s.log.arms > 0 || c.catchUp) then s.log.now else s.log.changeAt
  {
    if e.Arm? { ArmOwesNothing(c, s, e.ok); }
    else if Own(e) { LoopOwesNothing(c, s, e); }
  }

  /** A live watcher notices an append; the tick it yields begins a callback later than every change so far. */
  lemma AppendIsCalledBack(c: Config, version: nat, es: seq<Event>)
    requires Valid(c, Init(c, version), es)
    requires var s := Run(c, Init(c, version), es); s.pc.Parked? && s.watcher.open && !Stopped(s)
    ensures
      var s := Run(c, Init(c, version), es);
      var t := Step(c, s, Append);
      && t.version == s.version + 1 && t.pc.Parked? && Enabled(t, Tick)
      && var ticked := Step(c, t, Tick);
      && Enabled(ticked, TickResume)
      && var called, n := Step(c, ticked, TickResume), |s.log.calls|;
      && called.pc == InChange(n) && |called.log.calls| == n + 1 && !called.log.calls[n].resync
      && called.log.calls[n].at > called.log.changeAt && called.watcher.seen == called.version
  {
    RunInv(c, Init(c, version), es);
  }

  /**
   The loop waits for its callback and goes back to its watcher when it settles, either way, or is given up for
   a fork.
   */
  lemma CallbackComesBack(c: Config, s: State, threw: bool)
    requires Shape(c, s) && s.pc.InChange?
    ensures
      var e := if threw then CallThrow(s.pc.call) else CallReturn(s.pc.call);
      Enabled(s, e) && Step(c, s, e).pc.Parked? && Step(c, s, e).log.calls[s.pc.call].done
    ensures Enabled(s, Abandon) <==> s.forked || s.closed
    ensures
      Enabled(s, Abandon) ==>
        Step(c, s, Abandon).pc.Parked? && Step(c, s, Abandon).log.calls[s.pc.call].abandoned
  {}

  /**
   What is reported: outside a fork's window and before a close, a callback that throws without having been given
   up, a watcher that could not be had, and one that threw, once it has been closed and if the loop goes on.
   */
  function Reported(s: State, e: Event): seq<Report> {
    if s.closed then []
    else
      match e
      case CallThrow(k) =>
        if !s.forked && k < |s.log.calls| && !s.log.calls[k].abandoned then [ChangeError(k)] else []
      case Arm(false) => if s.ext then [] else [WatchError(s.log.now)]
      case CloseDone =>
        if !s.forked && !s.ext && s.pc == Closing(true) then [WatchError(s.log.now)] else []
      case _ => []
  }

  lemma ArmReports(c: Config, s: State, ok: bool)
    requires Enabled(s, Arm(ok))
    ensures Step(c, s, Arm(ok)).log.reports == s.log.reports + Reported(s, Arm(ok))
  {}

  lemma CloseDoneReports(c: Config, s: State)
    requires Enabled(s, CloseDone)
    ensures Step(c, s, CloseDone).log.reports == s.log.reports + Reported(s, CloseDone)
  {}

  lemma CallReports(c: Config, s: State, e: Event)
    requires Enabled(s, e) && (e.CallReturn? || e.CallThrow?)
    ensures Step(c, s, e).log.reports == s.log.reports + Reported(s, e)
  {
    assert Settle(s, e.call, e.CallThrow?).log.reports == s.log.reports + Reported(s, e);
  }

  lemma LoopKeepsReports(c: Config, s: State, e: Event)
    requires Enabled(s, e) && Own(e) && !e.Arm? && !e.CloseDone?
    ensures Step(c, s, e).log.reports == s.log.reports
  {}

  lemma WorldKeepsReports(c: Config, s: State, e: Event)
    requires Enabled(s, e) && !Own(e) && !e.CallReturn? && !e.CallThrow?
    ensures Step(c, s, e).log.reports == s.log.reports
  {}

  lemma ReportsExactly(c: Config, s: State, e: Event)
    requires Enabled(s, e)
    ensures Step(c, s, e).log.reports == s.log.reports + Reported(s, e)
  {
    match e
    case Arm(ok) => ArmReports(c, s, ok);
    case CloseDone => CloseDoneReports(c, s);
    case CallReturn(_) => CallReports(c, s, e);
    case CallThrow(_) => CallReports(c, s, e);
    case _ =>
      assert s.log.reports + [] == s.log.reports;
      if Own(e) { LoopKeepsReports(c, s, e); } else { WorldKeepsReports(c, s, e); }
  }

  /** A throw of the watcher is a failure of the iteration; its end is not, nor is leaving it. */
  lemma IterationEndsAs(c: Config, s: State)
    requires s.pc.Parked?
    ensures Step(c, s, IterThrow).pc == Closing(true) && Step(c, s, IterEnd).pc == Closing(false)
    ensures !Step(c, s, IterThrow).watcher.open && !Step(c, s, IterEnd).watcher.open
  {}

  // ---- what a truncate and a close do --------------------------------------------------------------

  /** Nothing is watched any more and nothing waited for: the callback can be given up and a sleep is over. */
  predicate Interrupted(s: State, t: State) {
    && !t.watcher.held && !t.watcher.open && !t.signal && t.wake.None?
    && t.pc == (if s.pc.Backoff? then Top else s.pc) && t.log.calls == s.log.calls && t.log.reports == s.log.reports
  }

  /** A truncate the watch hears makes it start over: it interrupts, and what comes next is a resync. */
  lemma TruncateInterrupts(c: Config, s: State, version: nat)
    requires Shape(c, s)
    ensures
      var t := Step(c, s, Truncate(version));
      && t.version == version && (s.listening ==> t.forked && t.resync && Interrupted(s, t))
      && (!s.listening ==> t.pc == s.pc && t.forked == s.forked && t.wake == s.wake)
      && t.closed == s.closed && t.listening == s.listening
  {}

  /** A close interrupts too, takes the listener off and cannot be undone; a second one changes nothing. */
  lemma CloseInterrupts(c: Config, s: State)
    requires Shape(c, s)
    ensures
      var t := Step(c, s, Close);
      && t.closed && (!s.closed ==> !t.listening && Interrupted(s, t))
      && (s.closed ==> t == s.(log := s.log.(now := s.log.now + 1)))
  {}

  /** The host's own stop is heard, either way. */
  lemma HostStopIsHeard(c: Config, s: State, flag: bool)
    ensures Step(c, s, HostStop(flag)).ext == flag && Step(c, s, HostStop(flag)).pc == s.pc
  {}

  lemma StepOwesOn(c: Config, s: State, e: Event)
    requires Shape(c, s) && Enabled(s, e) && s.log.changeAt >= 0
    ensures Step(c, s, e).log.changeAt >= 0
  {
    ChangesAreOwed(c, s, e);
  }

  lemma {:induction false} RunOwesOn(c: Config, s: State, es: seq<Event>)
    requires Shape(c, s) && Valid(c, s, es) && s.log.changeAt >= 0
    ensures Run(c, s, es).log.changeAt >= 0
    decreases |es|
  {
    if es == [] {
    } else {
      StepOwesOn(c, s, es[0]);
      StepShape(c, s, es[0]);
      RunOwesOn(c, Step(c, s, es[0]), es[1..]);
    }
  }

  /** With catchUp a first callback is owed from the start: the watch never waits without having begun one. */
  lemma CatchUpIsOwed(c: Config, version: nat, es: seq<Event>)
    requires c.catchUp && Valid(c, Init(c, version), es)
    ensures
      var s := Run(c, Init(c, version), es);
      s.pc.Parked? && s.watcher.open && !TickDue(s) ==> exists k :: 0 <= k < |s.log.calls| && !s.log.calls[k].abandoned
  {
    NoLostChange(c, version, es);
    RunOwesOn(c, Init(c, version), es);
  }

  lemma ImpatientArm(c: Config, s: State, ok: bool)
    requires !c.patient && Enabled(s, Arm(ok))
    ensures !Step(c, s, Arm(ok)).pc.Backoff?
  {}

  lemma ImpatientLoop(c: Config, s: State, e: Event)
    requires !c.patient && Enabled(s, e) && Own(e) && !e.Arm?
    ensures !Step(c, s, e).pc.Backoff?
  {}

  lemma ImpatientCall(c: Config, s: State, e: Event)
    requires !s.pc.Backoff? && Enabled(s, e) && (e.CallReturn? || e.CallThrow?)
    ensures !Step(c, s, e).pc.Backoff?
  {
    assert !Settle(s, e.call, e.CallThrow?).pc.Backoff?;
  }

  lemma ImpatientWorld(c: Config, s: State, e: Event)
    requires !s.pc.Backoff? && Enabled(s, e) && !Own(e) && !e.CallReturn? && !e.CallThrow?
    ensures !Step(c, s, e).pc.Backoff?
  {}

  lemma ImpatientStep(c: Config, s: State, e: Event)
    requires !c.patient && !s.pc.Backoff? && Enabled(s, e)
    ensures !Step(c, s, e).pc.Backoff?
  {
    match e
    case Arm(ok) => ImpatientArm(c, s, ok);
    case CallReturn(_) => ImpatientCall(c, s, e);
    case CallThrow(_) => ImpatientCall(c, s, e);
    case _ => if Own(e) { ImpatientLoop(c, s, e); } else { ImpatientWorld(c, s, e); }
  }

  /** Without a retry delay the loop never sleeps. */
  lemma {:induction false} NoDelayNoSleep(c: Config, s: State, es: seq<Event>)
    requires !c.patient && !s.pc.Backoff? && Valid(c, s, es)
    ensures !Run(c, s, es).pc.Backoff?
    decreases |es|
  {
    if es == [] {
    } else {
      ImpatientStep(c, s, es[0]);
      NoDelayNoSleep(c, Step(c, s, es[0]), es[1..]);
    }
  }

  predicate Tidy(s: State) {
    s.pc.Leaving? || s.pc.Exited? ==> !s.listening && !s.watcher.held && !s.watcher.open
  }

  lemma ArmTidy(c: Config, s: State, ok: bool)
    requires Shape(c, s) && Enabled(s, Arm(ok))
    ensures Tidy(Step(c, s, Arm(ok)))
  {}

  lemma LoopTidy(c: Config, s: State, e: Event)
    requires Shape(c, s) && Tidy(s) && Enabled(s, e) && Own(e) && !e.Arm?
    ensures Tidy(Step(c, s, e))
  {}

  lemma WorldTidy(c: Config, s: State, e: Event)
    requires Shape(c, s) && Tidy(s) && Enabled(s, e) && !Own(e)
    ensures Tidy(Step(c, s, e))
  {}

  lemma {:induction false} RunTidy(c: Config, s: State, es: seq<Event>)
    requires Shape(c, s) && Tidy(s) && Valid(c, s, es)
    ensures Tidy(Run(c, s, es))
    decreases |es|
  {
    if es == [] {
    } else {
      var e := es[0];
      if e.Arm? { ArmTidy(c, s, e.ok); } else if Own(e) { LoopTidy(c, s, e); } else { WorldTidy(c, s, e); }
      StepShape(c, s, e);
      RunTidy(c, Step(c, s, e), es[1..]);
    }
  }

  /** A loop that is leaving, or has left, holds no listener and no watcher. */
  lemma ExitLeavesNothing(c: Config, version: nat, es: seq<Event>)
    requires Valid(c, Init(c, version), es)
    ensures Tidy(Run(c, Init(c, version), es))
  {
    RunTidy(c, Init(c, version), es);
  }

  // ---- without a fork or a close ---------------------------------------------------------------

  /** Between two watchers: what was watched is over, and nothing is watched yet. */
  predicate Unwatched(pc: Pc) { pc.Returning? || pc.Closing? || pc.Backoff? || pc.Top? || pc.Leaving? }

  /** How many turns away from the next attempt to arm, or from the exit. */
  function Away(pc: Pc): nat {
    match pc
    case Returning => 4
    case Closing(_) => 3
    case Backoff => 2
    case Top => 1
    case Leaving => 1
    case _ => 0
  }

  /** The loop goes on: a step of its own, or the end of the sleep it waits for. */
  predicate Turn(s: State, e: Event) { Own(e) || (e.SleepFire? && s.wake == Some(e.nap)) }

  function Turns(c: Config, s: State, es: seq<Event>): nat
    requires Valid(c, s, es)
    decreases |es|
  {
    if es == [] then 0 else (if Turn(s, es[0]) then 1 else 0) + Turns(c, Step(c, s, es[0]), es[1..])
  }

  predicate Comes(s: State, e: Event, t: State) {
    || t.log.attempts > s.log.attempts
    || (&& t.log.attempts == s.log.attempts && (Unwatched(t.pc) || t.pc.Exited?)
        && Away(t.pc) + (if Turn(s, e) then 1 else 0) <= Away(s.pc))
  }

  lemma ArmComes(c: Config, s: State, ok: bool)
    requires Shape(c, s) && Enabled(s, Arm(ok))
    ensures Comes(s, Arm(ok), Step(c, s, Arm(ok)))
  {}

  lemma LoopComes(c: Config, s: State, e: Event)
    requires Shape(c, s) && (Unwatched(s.pc) || s.pc.Exited?) && Enabled(s, e) && Own(e) && !e.Arm?
    ensures Comes(s, e, Step(c, s, e))
  {}

  lemma WorldComes(c: Config, s: State, e: Event)
    requires Shape(c, s) && (Unwatched(s.pc) || s.pc.Exited?) && Enabled(s, e) && !Own(e)
    ensures Comes(s, e, Step(c, s, e))
  {}

  lemma StepTurns(c: Config, s: State, e: Event)
    requires Shape(c, s) && (Unwatched(s.pc) || s.pc.Exited?) && Enabled(s, e)
    ensures Comes(s, e, Step(c, s, e))
  {
    match e
    case Arm(ok) => ArmComes(c, s, ok);
    case _ => if Own(e) { LoopComes(c, s, e); } else { WorldComes(c, s, e); }
  }

  lemma {:induction false} RunTurns(c: Config, s: State, es: seq<Event>)
    requires Shape(c, s) && (Unwatched(s.pc) || s.pc.Exited?) && Valid(c, s, es)
    ensures
      var t := Run(c, s, es);
      || t.log.attempts > s.log.attempts
      || ((Unwatched(t.pc) || t.pc.Exited?) && Away(t.pc) + Turns(c, s, es) <= Away(s.pc))
    decreases |es|
  {
    if es == [] {
    } else {
      var t := Step(c, s, es[0]);
      StepTurns(c, s, es[0]);
      StepShape(c, s, es[0]);
      if t.log.attempts > s.log.attempts { RunSilent(c, t, es[1..]); } else { RunTurns(c, t, es[1..]); }
    }
  }

  function NextTurn(s: State): Event {
    match s.pc
    case Returning => ReturnDone(false)
    case Closing(_) => CloseDone
    case Backoff => SleepFire(if s.wake.Some? then s.wake.value else 0)
    case Leaving => LeaveDone
    case _ => Arm(true)
  }

  /**
   A watch that broke is watched again. Once a watcher has thrown or ended, or could not be had, four turns of the
   loop bring a further attempt to arm, or the exit, whatever else happens; and until then a turn can be
   taken. In particular the end of the sleep it waits for takes the loop back to its top.
   */
  lemma BrokenWatchIsRetried(c: Config, version: nat, before: seq<Event>, after: seq<Event>)
    requires Valid(c, Init(c, version), before) && Valid(c, Run(c, Init(c, version), before), after)
    requires Unwatched(Run(c, Init(c, version), before).pc)
    ensures
      var s := Run(c, Init(c, version), before);
      var t := Run(c, s, after);
      && Enabled(s, NextTurn(s)) && Turn(s, NextTurn(s)) && (s.pc.Backoff? ==> Step(c, s, NextTurn(s)).pc.Top?)
      && (Turns(c, s, after) >= 4 ==> t.log.attempts > s.log.attempts || t.pc.Exited?)
  {
    var s := Run(c, Init(c, version), before);
    RunInv(c, Init(c, version), before);
    RunTurns(c, s, after);
    assert Away(s.pc) <= 4;
  }

  /** And once it is watched again a callback begins, later than every change so far. */
  lemma RearmCatchesUp(c: Config, version: nat, es: seq<Event>)
    requires Valid(c, Init(c, version), es) && Enabled(Run(c, Init(c, version), es), Arm(true))
    ensures
      var s := Run(c, Init(c, version), es);
      var t := Step(c, s, Arm(true));
      !Stopped(s) ==>
        && t.watcher.open && t.watcher.seen == s.version && t.log.arms == s.log.arms + 1
        && (if s.log.arms > 0 || c.catchUp || s.resync then
              var n := |s.log.calls|;
              && |t.log.calls| == n + 1 && t.pc == InChange(n) && t.log.calls[n].resync && !t.log.calls[n].abandoned
              && t.log.calls[n].at > t.log.changeAt
            else t.pc.Parked? && t.log.calls == s.log.calls)
  {
    RunInv(c, Init(c, version), es);
  }

  predicate Stops(e: Event) { e.Close? || e == HostStop(true) }

  lemma StepStays(c: Config, s: State, e: Event)
    requires Enabled(s, e) && !Stopped(s) && !s.pc.Leaving? && !s.pc.Exited? && !Stops(e)
    ensures var t := Step(c, s, e); !Stopped(t) && !t.pc.Leaving? && !t.pc.Exited?
  {}

  lemma {:induction false} RunStays(c: Config, s: State, es: seq<Event>)
    requires Valid(c, s, es) && !Stopped(s) && !s.pc.Leaving? && !s.pc.Exited?
    requires forall n :: 0 <= n < |es| ==> !Stops(es[n])
    ensures var t := Run(c, s, es); !Stopped(t) && !t.pc.Leaving? && !t.pc.Exited?
    decreases |es|
  {
    if es == [] {
    } else {
      StepStays(c, s, es[0]);
      RunStays(c, Step(c, s, es[0]), es[1..]);
    }
  }

  /** The loop is never left but for a close or a stop. */
  lemma LeavesOnlyWhenAsked(c: Config, version: nat, es: seq<Event>)
    requires Valid(c, Init(c, version), es)
    ensures
      var s := Run(c, Init(c, version), es);
      s.pc.Leaving? || s.pc.Exited? ==> exists n :: 0 <= n < |es| && Stops(es[n])
  {
    if forall n :: 0 <= n < |es| ==> !Stops(es[n]) { RunStays(c, Init(c, version), es); }
  }

  /** What lets the loop arm without another sleep. */
  predicate Paces(e: Event) { e.SleepFire? || e.Truncate? || e.Close? }

  function PaceCount(es: seq<Event>): nat {
    if es == [] then 0 else (if Paces(es[0]) then 1 else 0) + PaceCount(es[1..])
  }

  function Poised(s: State): nat { if s.pc.Top? || s.forked then 1 else 0 }

  predicate Paced(s: State, e: Event, t: State) {
    t.log.attempts + Poised(t) <= s.log.attempts + Poised(s) + (if Paces(e) then 1 else 0)
  }

  lemma ArmPaced(c: Config, s: State, ok: bool)
    requires c.patient && Shape(c, s) && Enabled(s, Arm(ok))
    ensures Paced(s, Arm(ok), Step(c, s, Arm(ok)))
  {}

  lemma LoopPaced(c: Config, s: State, e: Event)
    requires c.patient && Shape(c, s) && Enabled(s, e) && Own(e) && !e.Arm?
    ensures Paced(s, e, Step(c, s, e))
  {}

  lemma WorldPaced(c: Config, s: State, e: Event)
    requires c.patient && Shape(c, s) && Enabled(s, e) && !Own(e)
    ensures Paced(s, e, Step(c, s, e))
  {}

  lemma StepPaced(c: Config, s: State, e: Event)
    requires c.patient && Shape(c, s) && Enabled(s, e)
    ensures Paced(s, e, Step(c, s, e))
  {
    match e
    case Arm(ok) => ArmPaced(c, s, ok);
    case _ => if Own(e) { LoopPaced(c, s, e); } else { WorldPaced(c, s, e); }
  }

  lemma {:induction false} RunPaced(c: Config, s: State, es: seq<Event>)
    requires c.patient && Shape(c, s) && Valid(c, s, es)
    ensures Run(c, s, es).log.attempts + Poised(Run(c, s, es)) <= s.log.attempts + Poised(s) + PaceCount(es)
    decreases |es|
  {
    if es == [] {
    } else {
      StepPaced(c, s, es[0]);
      StepShape(c, s, es[0]);
      RunPaced(c, Step(c, s, es[0]), es[1..]);
    }
  }

  /** With a retry delay no arm follows another without a sleep that ended, a truncate or the close in between. */
  lemma ArmsArePaced(c: Config, version: nat, es: seq<Event>)
    requires c.patient && Valid(c, Init(c, version), es)
    ensures Run(c, Init(c, version), es).log.attempts <= 1 + PaceCount(es)
  {
    RunPaced(c, Init(c, version), es);
  }

  /**
   No callback begins and nothing is reported after close(); nothing is reported between a truncate and the
   next arm.
   */
  lemma SilentAfterCloseAndFork(c: Config, version: nat, before: seq<Event>, after: seq<Event>)
    requires Valid(c, Init(c, version), before) && Valid(c, Run(c, Init(c, version), before), after)
    ensures
      var s := Run(c, Init(c, version), before);
      var t := Run(c, s, after);
      && (s.closed ==> |t.log.calls| == |s.log.calls| && t.log.reports == s.log.reports)
      && (s.forked && t.log.attempts == s.log.attempts ==> t.log.reports == s.log.reports)
  {
    RunSilent(c, Run(c, Init(c, version), before), after);
  }

  /** An abandoned callback is never reported, before or after it is abandoned. */
  lemma AbandonedNeverReported(c: Config, version: nat, es: seq<Event>, k: nat)
    requires Valid(c, Init(c, version), es)
    ensures
      var log := Run(c, Init(c, version), es).log;
      k < |log.calls| && log.calls[k].abandoned ==> ChangeError(k) !in log.reports
  {
    RunInv(c, Init(c, version), es);
  }

  // ---- the loop on its own variables ----------------------------------------------------------

  /**
   `watchRange`'s closure. Every method is the code between two awaits (or a listener), performed on
   the variables in the source's order, and takes the view exactly where `Step` takes it,
   so `StepInv` and the lemmas over runs speak about this class as well.
   */
  class RangeWatch {
    const config: Config
    var closed: bool
    var ext: bool
    var forked: bool
    var resync: bool
    var listening: bool
    var signal: bool
    var wake: Option<nat>
    var naps: nat
    var watcher: Watcher
    var version: nat
    var pc: Pc
    var log: Log

    ghost function View(): State
      reads this
    {
      State(closed, ext, forked, resync, listening, signal, wake, naps, watcher, version, pc, log)
    }

    constructor (c: Config, beeVersion: nat)
      ensures config == c && View() == Init(c, beeVersion)
    {
      config := c;
      closed, ext, forked, resync, listening, signal := false, false, false, c.catchUp, true, true;
      wake, naps, watcher, version, pc := None, 0, Watcher(false, false, false, 0), beeVersion, Top;
      log := Log(1, if c.catchUp then 0 else -1, [], [], 0, 0);
    }

    method Elapse()
      modifies this`log
      ensures log == old(log).(now := old(log.now) + 1)
    {
      log := log.(now := log.now + 1);
    }

    method NoteChange()
      modifies this`log
      ensures log == Changed(config, old(log))
    {
      if log.arms > 0 || config.catchUp { log := log.(changeAt := log.now); }
    }

    method WakeUp()
      modifies this`wake, this`pc
      ensures wake == None && pc == if old(wake).Some? then Top else old(pc)
    {
      var w := wake;
      wake := None;
      if w.Some? { pc := Top; }
    }

    /** Take the watcher out of the variable and close it. */
    method CloseHeld()
      modifies this`watcher
      ensures watcher == Release(old(watcher))
    {
      var w := watcher.held;
      watcher := watcher.(held := false);
      if w { watcher := watcher.(open := false); }
    }

    method ReportError()
      modifies this`log
      ensures log == ReportWatch(old(View()))
    {
      if !(closed || forked) { log := log.(reports := log.reports + [WatchError(log.now)]); }
    }

    method Append()
      modifies this
      ensures View() == Step(config, old(View()), Event.Append)
    {
      version := version + 1;
      NoteChange();
      Elapse();
    }

    method TruncateListener()
      modifies this
      ensures View() == OnTruncate(old(View()))
    {
      forked := true;
      resync := true;
      signal := false;
      CloseHeld();
      WakeUp();
    }

    method Truncate(v: nat)
      modifies this
      ensures View() == Step(config, old(View()), Event.Truncate(v))
    {
      version := v;
      watcher := watcher.(deaf := true);
      NoteChange();
      if listening { TruncateListener(); }
      Elapse();
    }

    method HostStop(flag: bool)
      modifies this
      ensures View() == Step(config, old(View()), Event.HostStop(flag))
    {
      ext := flag;
      Elapse();
    }

    method Close()
      modifies this
      ensures View() == Step(config, old(View()), Event.Close)
    {
      if !closed {
        closed := true;
        listening := false;
        WakeUp();
        signal := false;
        CloseHeld();
      }
      Elapse();
    }

    method BeginChange(catchUp: bool)
      modifies this`log, this`pc
      ensures View() == Begin(old(View()), catchUp)
    {
      pc := InChange(|log.calls|);
      log := log.(calls := log.calls + [Call(log.now, catchUp, false, false)]);
    }

    method StartBackoff()
      modifies this`pc, this`wake, this`naps
      ensures View() == EnterBackoff(config, old(View()))
    {
      if !config.patient || forked || closed || ext {
        pc := Top;
      } else {
        wake := Some(naps);
        naps := naps + 1;
        pc := Backoff;
      }
    }

    method LeaveLoop()
      modifies this`listening, this`watcher, this`pc
      ensures View() == Leave(old(View()))
    {
      listening := false;
      pc := if watcher.held then Leaving else Exited;
      CloseHeld();
    }

    method StartListening()
      modifies this
      ensures View() == Listen(old(View()))
    {
      watcher := Watcher(true, true, false, version);
      log := log.(arms := log.arms + 1);
      if resync {
        resync := false;
        BeginChange(true);
      } else {
        pc := Parked;
      }
    }

    /** The head of the `while`, up to its first await. */
    method TurnLoop(ok: bool)
      modifies this
      ensures View() == TopOfLoop(config, old(View()), ok)
    {
      if closed || ext {
        LeaveLoop();
      } else {
        forked := false;
        signal := true;
        log := log.(attempts := log.attempts + 1);
        if ok {
          StartListening();
        } else {
          ReportError();
          StartBackoff();
        }
      }
    }

    method Arm(ok: bool)
      requires pc.Top?
      modifies this
      ensures View() == Step(config, old(View()), Event.Arm(ok))
    {
      TurnLoop(ok);
      Elapse();
    }

    method SettleCall(k: nat, threw: bool)
      requires k < |log.calls| && !log.calls[k].done
      modifies this
      ensures View() == Step(config, old(View()), if threw then CallThrow(k) else CallReturn(k))
    {
      if threw && !log.calls[k].abandoned && !(closed || forked) {
        log := log.(reports := log.reports + [ChangeError(k)]);
      }
      log := log.(calls := log.calls[k := log.calls[k].(done := true)]);
      if pc == InChange(k) { pc := Parked; }
      Elapse();
    }

    /** The fork signal wins the race against the callback. */
    method Abandon()
      requires pc.InChange? && !signal && pc.call < |log.calls|
      modifies this
      ensures View() == Step(config, old(View()), Event.Abandon)
    {
      log := log.(calls := log.calls[pc.call := log.calls[pc.call].(abandoned := true)]);
      pc := Parked;
      Elapse();
    }

    method Yield()
      requires pc.Parked? && TickDue(View())
      modifies this
      ensures View() == Step(config, old(View()), Tick)
    {
      watcher := watcher.(seen := version);
      pc := Ticked;
      Elapse();
    }

    /** The body of the `for await`, up to its await. */
    method ResumeTick()
      requires pc.Ticked?
      modifies this
      ensures View() == Step(config, old(View()), TickResume)
    {
      if closed || ext || !watcher.held {
        watcher := watcher.(open := false);
        pc := Returning;
      } else {
        BeginChange(false);
      }
      Elapse();
    }

    /** The iteration is over: by exhaustion, by a throw, or by the early return settling. */
    method FinishIteration(e: Event)
      requires Enabled(View(), e) && (e.IterEnd? || e.IterThrow? || e.ReturnDone?)
      modifies this
      ensures View() == Step(config, old(View()), e)
    {
      var failed := if e.ReturnDone? then e.threw else e.IterThrow?;
      watcher := watcher.(held := false, open := false);
      pc := Closing(failed);
      Elapse();
    }

    method CloseSettled()
      requires pc.Closing?
      modifies this
      ensures View() == Step(config, old(View()), CloseDone)
    {
      if closed || ext {
        LeaveLoop();
      } else {
        if pc.failed { ReportError(); }
        resync := true;
        StartBackoff();
      }
      Elapse();
    }

    /** A retry sleep ends; one that was woken early has nothing left to resolve. */
    method SleepEnds(nap: nat)
      requires nap < naps
      modifies this
      ensures View() == Step(config, old(View()), SleepFire(nap))
    {
      if wake == Some(nap) { WakeUp(); }
      Elapse();
    }
  }
}
