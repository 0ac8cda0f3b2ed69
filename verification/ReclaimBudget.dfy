/**
 The byte budget of one serving handler (sdk/serve.js, class Reclaim): many drives' reclaim passes and
 budget checks interleave, sharing one capability probe and one rotation floor.

 Each pass and the check chained onto it is a slot with a program counter at its awaits; code between two
 awaits is one step. Every step that reads the clock is handed a reading, and readings may go backwards.
 */
module ReclaimBudget {
  import opened Wrappers

  const RECLAIM_WINDOW_BUDGET_K := 3
  const RECLAIM_MIN_ROTATE_MS := 5 * 60 * 1000
  const PROBE_MAX_TRIES := 3

  type Drive = nat

  /** A budget of 0 is off. */
  datatype Settings = Settings(intervalMs: int, budgetBytes: nat, metaBudgetBytes: nat, hasCallback: bool)

  /** ok: the probe measured; only then does canPunch say anything. */
  datatype Punch = Punch(ok: bool, canPunch: bool)

  datatype Probe = Probe(punch: Option<Punch>, running: bool, tries: nat)

  datatype Latches = Latches(unmeasurable: bool, budgetOff: bool, lastOverBudget: int)

  /**
   Passing: in reclaimBelowWindow, `told` once the window sink was called. Probing: awaiting probe number
   `probe`. Deciding: that await is over. Measuring: awaiting the byte counts.
   */
  datatype Pc =
    | Passing(told: bool)
    | Probing(probe: nat, ran: bool)
    | Deciding(applies: bool, ran: bool)
    | Measuring(blobOn: bool)
    | Done

  datatype Slot = Slot(drive: Drive, pc: Pc)

  datatype Measured = Bytes(blobs: nat, meta: nat) | Unmeasurable | Transient

  datatype Trigger = Budget | Meta

  datatype Info = Info(trigger: Trigger, blobs: nat, meta: nat, effectiveBudgetBytes: Option<nat>, windowBytes: nat)

  datatype Log =
    | Started(drive: Drive, at: int)
    | Observed(drive: Drive, estimate: nat)
    | Probed
    | OverBudget(drive: Drive, at: int, info: Info)

  datatype State = State(last: map<Drive, int>, window: map<Drive, nat>, probe: Probe, latches: Latches,
                         slots: seq<Slot>, log: seq<Log>)

  const INIT := State(map[], map[], Probe(None, false, 0), Latches(false, false, 0), [], [])

  datatype Event =
    | Serve(drive: Drive, enabled: bool, now: int)
    | Sink(slot: nat, bytes: nat, listed: nat, resolved: nat)
    | PassEnds(slot: nat, ran: bool)
    | ProbeSettles(answer: Option<Punch>)
    | ProbeAwaited(slot: nat)
    | Decide(slot: nat)
    | Measure(slot: nat, result: Measured, now: int)

  // ---- the arithmetic --------------------------------------------------------------------------

  /** A short listing is scaled up to the whole of it, rounding half up. */
  function Estimate(bytes: nat, listed: nat, resolved: nat): nat {
    if 0 < resolved < listed then (2 * (bytes * listed) + resolved) / (2 * resolved) else bytes
  }

  lemma DivideBounds(n: nat, d: nat, least: nat)
    requires d > 0 && d * least <= n
    ensures d * (n / d) <= n < d * (n / d) + d && n / d >= least
  {
    var q := n / d;
    assert q < least ==> d * (q + 1) <= d * least;
  }

  lemma Doubled(a: nat, b: nat)
    ensures (2 * a) * b == 2 * (a * b)
  {}

  lemma Grows(a: nat, low: nat, high: nat)
    requires low <= high
    ensures low * a <= high * a && a * low <= a * high
  {}

  /** The estimate is never under what was measured, and is the proportional window to within half a byte. */
  lemma EstimateIsTheWindow(bytes: nat, listed: nat, resolved: nat)
    requires 0 < resolved <= listed
    ensures
      var est := Estimate(bytes, listed, resolved);
      est >= bytes && 2 * (bytes * listed) - resolved < 2 * (resolved * est) <= 2 * (bytes * listed) + resolved
  {
    var whole, part := bytes * listed, resolved * bytes;
    assert part <= whole by { Grows(bytes, resolved, listed); }
    if resolved < listed {
      Doubled(resolved, bytes);
      DivideBounds(2 * whole + resolved, 2 * resolved, bytes);
      Doubled(resolved, Estimate(bytes, listed, resolved));
    }
  }

  function WindowOf(s: State, d: Drive): nat { if d in s.window then s.window[d] else 0 }

  function LastOf(s: State, d: Drive): int { if d in s.last then s.last[d] else 0 }

  function EffectiveBudget(c: Settings, s: State, d: Drive): nat {
    var scaled := WindowOf(s, d) * RECLAIM_WINDOW_BUDGET_K;
    if scaled > c.budgetBytes then scaled else c.budgetBytes
  }

  // ---- the steps -------------------------------------------------------------------------------

  function SetPc(s: State, i: nat, pc: Pc): State
    requires i < |s.slots|
  {
    s.(slots := s.slots[i := s.slots[i].(pc := pc)])
  }

  function Logged(s: State, entry: Log): State { s.(log := s.log + [entry]) }

  predicate ProbeOver(s: State, pc: Pc) {
    pc.Probing? && !(s.probe.running && pc.probe == s.probe.tries)
  }

  predicate Measures(p: Probe) { p.punch.Some? && p.punch.value.ok }

  predicate CanPunch(p: Probe) { Measures(p) && p.punch.value.canPunch }

  predicate ProvedCannotPunch(p: Probe) { Measures(p) && !p.punch.value.canPunch }

  predicate Enabled(s: State, ev: Event) {
    match ev
    case Serve(_, _, _) => true
    case Sink(i, _, _, _) => i < |s.slots| && s.slots[i].pc == Passing(false)
    case PassEnds(i, _) => i < |s.slots| && s.slots[i].pc.Passing?
    case ProbeSettles(_) => s.probe.running
    case ProbeAwaited(i) => i < |s.slots| && ProbeOver(s, s.slots[i].pc)
    case Decide(i) => i < |s.slots| && s.slots[i].pc.Deciding?
    case Measure(i, _, _) => i < |s.slots| && s.slots[i].pc.Measuring?
  }

  function DoServe(c: Settings, s: State, d: Drive, enabled: bool, now: int): State {
    if !enabled || now - LastOf(s, d) < c.intervalMs then s
    else
      Logged(s.(last := s.last[d := now], slots := s.slots + [Slot(d, Passing(false))]), Started(d, now))
  }

  function Observe(s: State, d: Drive, bytes: nat, listed: nat, resolved: nat): State {
    if bytes == 0 then s
    else
      var est := Estimate(bytes, listed, resolved);
      Logged(if est > WindowOf(s, d) then s.(window := s.window[d := est]) else s, Observed(d, est))
  }

  /** The end of _budgetApplies: the verdict, latched when it is the good one. */
  function Applied(s: State, i: nat, ran: bool): State
    requires i < |s.slots|
  {
    if CanPunch(s.probe) then SetPc(s.(latches := s.latches.(budgetOff := true)), i, Deciding(false, ran))
    else SetPc(s, i, Deciding(true, ran))
  }

  function StartProbe(s: State): State {
    if s.probe.running then s
    else Logged(s.(probe := s.probe.(running := true, tries := s.probe.tries + 1)), Probed)
  }

  function Check(c: Settings, s: State, i: nat, ran: bool): State
    requires i < |s.slots|
  {
    if !c.hasCallback || s.latches.unmeasurable then SetPc(s, i, Done)
    else if c.budgetBytes > 0 && !s.latches.budgetOff then
      if !Measures(s.probe) && s.probe.tries < PROBE_MAX_TRIES then
        var p := StartProbe(s); SetPc(p, i, Probing(p.probe.tries, ran))
      else Applied(s, i, ran)
    else SetPc(s, i, if c.metaBudgetBytes > 0 then Measuring(false) else Done)
  }

  function DoDecide(c: Settings, s: State, i: nat): State
    requires i < |s.slots| && s.slots[i].pc.Deciding?
  {
    var pc := s.slots[i].pc;
    var blobOn := pc.applies && (pc.ran || ProvedCannotPunch(s.probe));
    SetPc(s, i, if blobOn || c.metaBudgetBytes > 0 then Measuring(blobOn) else Done)
  }

  function TriggerOf(c: Settings, s: State, d: Drive, blobOn: bool, blobs: nat, meta: nat): Option<Trigger> {
    if blobOn && meta + blobs > EffectiveBudget(c, s, d) then Some(Budget)
    else if c.metaBudgetBytes > 0 && meta > c.metaBudgetBytes then Some(Meta)
    else None
  }

  function Judge(c: Settings, s: State, d: Drive, blobOn: bool, blobs: nat, meta: nat, now: int): State {
    var t := TriggerOf(c, s, d, blobOn, blobs, meta);
    if t.None? || now - s.latches.lastOverBudget < RECLAIM_MIN_ROTATE_MS then s
    else
      var budget := if t.value.Budget? then Some(EffectiveBudget(c, s, d)) else None;
      Logged(s.(latches := s.latches.(lastOverBudget := now)),
             OverBudget(d, now, Info(t.value, blobs, meta, budget, WindowOf(s, d))))
  }

  function DoMeasure(c: Settings, s: State, i: nat, r: Measured, now: int): State
    requires i < |s.slots| && s.slots[i].pc.Measuring?
  {
    var done := SetPc(s, i, Done);
    match r
    case Transient => done
    case Unmeasurable => done.(latches := s.latches.(unmeasurable := true))
    case Bytes(blobs, meta) => Judge(c, done, s.slots[i].drive, s.slots[i].pc.blobOn, blobs, meta, now)
  }

  function Step(c: Settings, s: State, ev: Event): State
    requires Enabled(s, ev)
  {
    match ev
    case Serve(d, enabled, now) => DoServe(c, s, d, enabled, now)
    case Sink(i, bytes, listed, resolved) =>
      Observe(SetPc(s, i, Passing(true)), s.slots[i].drive, bytes, listed, resolved)
    case PassEnds(i, ran) => Check(c, s, i, ran)
    case ProbeSettles(answer) =>
      s.(probe := s.probe.(running := false, punch := if answer.Some? then answer else s.probe.punch))
    case ProbeAwaited(i) => Applied(s, i, s.slots[i].pc.ran)
    case Decide(i) => DoDecide(c, s, i)
    case Measure(i, r, now) => DoMeasure(c, s, i, r, now)
  }

  predicate Valid(c: Settings, s: State, evs: seq<Event>)
    decreases |evs|
  {
    evs == [] || (Enabled(s, evs[0]) && Valid(c, Step(c, s, evs[0]), evs[1..]))
  }

  function Run(c: Settings, s: State, evs: seq<Event>): State
    requires Valid(c, s, evs)
    decreases |evs|
  {
    if evs == [] then s else Run(c, Step(c, s, evs[0]), evs[1..])
  }

  // ---- invariants ------------------------------------------------------------------------------

  predicate WindowsCover(s: State, k: nat)
    requires k < |s.log|
  {
    s.log[k].Observed? ==> s.log[k].estimate <= WindowOf(s, s.log[k].drive)
  }

  /** The ceiling is reported with the verdict it decided, and only then. */
  predicate Coherent(c: Settings, info: Info) {
    && (info.trigger.Budget? <==> info.effectiveBudgetBytes.Some?)
    && (info.trigger.Budget? ==>
          var ceiling := info.effectiveBudgetBytes.value;
          && info.blobs + info.meta > ceiling >= c.budgetBytes && ceiling >= info.windowBytes * RECLAIM_WINDOW_BUDGET_K
          && (ceiling == c.budgetBytes || ceiling == info.windowBytes * RECLAIM_WINDOW_BUDGET_K))
    && (info.trigger.Meta? ==> info.meta > c.metaBudgetBytes > 0)
  }

  /** One drive's blob verdict beats k times every window observed on it before. */
  predicate VerdictEarned(c: Settings, log: seq<Log>, k: nat)
    requires k < |log|
  {
    && (log[k].OverBudget? ==> Coherent(c, log[k].info))
    && (log[k].OverBudget? && log[k].info.trigger.Budget? ==>
      && log[k].info.blobs + log[k].info.meta > c.budgetBytes > 0
      && forall j :: 0 <= j < k && log[j].Observed? && log[j].drive == log[k].drive ==>
           log[k].info.blobs + log[k].info.meta > log[j].estimate * RECLAIM_WINDOW_BUDGET_K)
  }

  predicate FloorHeld(log: seq<Log>, j: nat, k: nat)
    requires j < k < |log|
  {
    log[j].OverBudget? && log[k].OverBudget? ==> log[j].at + RECLAIM_MIN_ROTATE_MS <= log[k].at
  }

  predicate NotLater(s: State, k: nat)
    requires k < |s.log|
  {
    s.log[k].OverBudget? ==> s.log[k].at <= s.latches.lastOverBudget
  }

  function Probes(log: seq<Log>): nat {
    if log == [] then 0 else Probes(log[..|log| - 1]) + (if log[|log| - 1].Probed? then 1 else 0)
  }

  predicate ProbesOk(s: State) {
    && Probes(s.log) == s.probe.tries <= PROBE_MAX_TRIES
    && (s.probe.running ==> !Measures(s.probe))
    && (s.latches.budgetOff ==> CanPunch(s.probe))
  }

  predicate SlotsOk(c: Settings, s: State) {
    forall i :: 0 <= i < |s.slots| ==>
      (s.slots[i].pc.Measuring? && s.slots[i].pc.blobOn) || s.slots[i].pc.Deciding? || s.slots[i].pc.Probing? ==>
        c.budgetBytes > 0
  }

  predicate LogOk(c: Settings, s: State) {
    && (forall k :: 0 <= k < |s.log| ==> WindowsCover(s, k) && VerdictEarned(c, s.log, k) && NotLater(s, k))
    && (forall j, k :: 0 <= j < k < |s.log| ==> FloorHeld(s.log, j, k))
  }

  predicate Inv(c: Settings, s: State) { LogOk(c, s) && ProbesOk(s) && SlotsOk(c, s) }

  /** What a step may do to the log: nothing, or one more entry. */
  predicate Extends(s: State, t: State) {
    || t.log == s.log
    || (|t.log| == |s.log| + 1 && s.log == t.log[..|s.log|])
  }

  lemma StepExtends(c: Settings, s: State, ev: Event)
    requires Enabled(s, ev)
    ensures Extends(s, Step(c, s, ev))
  {
    assert forall e: Log :: (s.log + [e])[..|s.log|] == s.log;
  }

  lemma ProbesAppend(log: seq<Log>, e: Log)
    ensures Probes(log + [e]) == Probes(log) + (if e.Probed? then 1 else 0)
  {
    assert (log + [e])[..|log|] == log;
  }

  lemma CheckProbesOk(c: Settings, s: State, i: nat, ran: bool)
    requires i < |s.slots| && ProbesOk(s)
    ensures ProbesOk(Check(c, s, i, ran))
  {
    ProbesAppend(s.log, Probed);
  }

  lemma ServeProbesOk(c: Settings, s: State, d: Drive, enabled: bool, now: int)
    requires ProbesOk(s)
    ensures ProbesOk(DoServe(c, s, d, enabled, now))
  {
    ProbesAppend(s.log, Started(d, now));
  }

  lemma ObserveProbesOk(s: State, d: Drive, bytes: nat, listed: nat, resolved: nat)
    requires ProbesOk(s)
    ensures ProbesOk(Observe(s, d, bytes, listed, resolved))
  {
    ProbesAppend(s.log, Observed(d, Estimate(bytes, listed, resolved)));
  }

  lemma JudgeProbesOk(c: Settings, s: State, d: Drive, blobOn: bool, blobs: nat, meta: nat, now: int)
    requires ProbesOk(s)
    ensures ProbesOk(Judge(c, s, d, blobOn, blobs, meta, now))
  {
    var t := Judge(c, s, d, blobOn, blobs, meta, now);
    if |t.log| > |s.log| { ProbesAppend(s.log, t.log[|s.log|]); }
  }

  lemma StepProbesOk(c: Settings, s: State, ev: Event)
    requires Enabled(s, ev) && ProbesOk(s)
    ensures ProbesOk(Step(c, s, ev))
  {
    match ev
    case Serve(d, enabled, now) => ServeProbesOk(c, s, d, enabled, now);
    case Sink(i, bytes, listed, resolved) =>
      ObserveProbesOk(SetPc(s, i, Passing(true)), s.slots[i].drive, bytes, listed, resolved);
    case PassEnds(i, ran) => CheckProbesOk(c, s, i, ran);
    case Measure(i, r, now) =>
      if r.Bytes? { JudgeProbesOk(c, SetPc(s, i, Done), s.slots[i].drive, s.slots[i].pc.blobOn, r.blobs, r.meta, now); }
    case _ =>
  }

  lemma StepSlotsOk(c: Settings, s: State, ev: Event)
    requires Enabled(s, ev) && SlotsOk(c, s)
    ensures SlotsOk(c, Step(c, s, ev))
  {}

  /** A drive's window estimate never falls, whatever is observed. */
  lemma WindowNeverFalls(c: Settings, s: State, ev: Event, d: Drive)
    requires Enabled(s, ev)
    ensures WindowOf(Step(c, s, ev), d) >= WindowOf(s, d)
  {}

  lemma StepLogOk(c: Settings, s: State, ev: Event)
    requires Enabled(s, ev) && LogOk(c, s) && SlotsOk(c, s)
    ensures LogOk(c, Step(c, s, ev))
  {
    var t := Step(c, s, ev);
    forall k | 0 <= k < |t.log| ensures WindowsCover(t, k) && VerdictEarned(c, t.log, k) && NotLater(t, k) {
      EntryOk(c, s, ev, k);
    }
    forall j, k | 0 <= j < k < |t.log| ensures FloorHeld(t.log, j, k) {
      EntriesApart(c, s, ev, j, k);
    }
  }

  lemma OldEntryOk(c: Settings, s: State, ev: Event, k: nat)
    requires Enabled(s, ev) && LogOk(c, s) && k < |s.log|
    ensures
      var t := Step(c, s, ev);
      k < |t.log| && WindowsCover(t, k) && VerdictEarned(c, t.log, k) && NotLater(t, k)
  {
    var t := Step(c, s, ev);
    StepExtends(c, s, ev);
    assert forall j :: 0 <= j <= k ==> t.log[j] == s.log[j];
    assert WindowsCover(s, k) && VerdictEarned(c, s.log, k) && NotLater(s, k);
    if s.log[k].Observed? { WindowNeverFalls(c, s, ev, s.log[k].drive); }
  }

  lemma JudgeOk(c: Settings, s: State, d: Drive, blobOn: bool, blobs: nat, meta: nat, now: int)
    requires (forall j :: 0 <= j < |s.log| ==> WindowsCover(s, j)) && (blobOn ==> c.budgetBytes > 0)
    requires |Judge(c, s, d, blobOn, blobs, meta, now).log| > |s.log|
    ensures
      var t := Judge(c, s, d, blobOn, blobs, meta, now);
      VerdictEarned(c, t.log, |s.log|) && NotLater(t, |s.log|)
  {
    var t := Judge(c, s, d, blobOn, blobs, meta, now);
    assert forall j :: 0 <= j < |s.log| ==> t.log[j] == s.log[j] && WindowsCover(s, j);
  }

  lemma NewEntryOk(c: Settings, s: State, ev: Event)
    requires Enabled(s, ev) && LogOk(c, s) && SlotsOk(c, s) && |Step(c, s, ev).log| > |s.log|
    ensures
      var t, k := Step(c, s, ev), |s.log|;
      WindowsCover(t, k) && VerdictEarned(c, t.log, k) && NotLater(t, k)
  {
    if ev.Measure? && ev.result.Bytes? {
      var pc, done := s.slots[ev.slot].pc, SetPc(s, ev.slot, Done);
      assert forall j :: 0 <= j < |s.log| ==> WindowsCover(s, j) ==> WindowsCover(done, j);
      JudgeOk(c, done, s.slots[ev.slot].drive, pc.blobOn, ev.result.blobs, ev.result.meta, ev.now);
    }
  }

  lemma EntryOk(c: Settings, s: State, ev: Event, k: nat)
    requires Enabled(s, ev) && LogOk(c, s) && SlotsOk(c, s) && k < |Step(c, s, ev).log|
    ensures
      var t := Step(c, s, ev);
      WindowsCover(t, k) && VerdictEarned(c, t.log, k) && NotLater(t, k)
  {
    StepExtends(c, s, ev);
    if k < |s.log| { OldEntryOk(c, s, ev, k); } else { NewEntryOk(c, s, ev); }
  }

  lemma EntriesApart(c: Settings, s: State, ev: Event, j: nat, k: nat)
    requires Enabled(s, ev) && LogOk(c, s) && j < k < |Step(c, s, ev).log|
    ensures FloorHeld(Step(c, s, ev).log, j, k)
  {
    var t := Step(c, s, ev);
    StepExtends(c, s, ev);
    assert t.log[j] == s.log[j] && NotLater(s, j);
    if k < |s.log| { assert t.log[k] == s.log[k] && FloorHeld(s.log, j, k); }
  }

  lemma {:induction false} RunInv(c: Settings, s: State, evs: seq<Event>)
    requires Valid(c, s, evs) && Inv(c, s)
    ensures Inv(c, Run(c, s, evs))
    decreases |evs|
  {
    if evs == [] {
    } else {
      StepLogOk(c, s, evs[0]);
      StepProbesOk(c, s, evs[0]);
      StepSlotsOk(c, s, evs[0]);
      RunInv(c, Step(c, s, evs[0]), evs[1..]);
    }
  }

  // ---- main results ----------------------------------------------------------------------------

  /**
   Over every run, with any drives interleaved and any clock: a replica no larger than the configured budget
   or than three times some window seen on its drive is never handed a blob verdict.
   */
  lemma HealthyReplicaIsLeftAlone(c: Settings, evs: seq<Event>, j: nat, k: nat)
    requires Valid(c, INIT, evs) && j < k < |Run(c, INIT, evs).log|
    requires
      var log := Run(c, INIT, evs).log;
      && log[j].Observed? && log[k].OverBudget? && log[j].drive == log[k].drive
      && (log[k].info.blobs + log[k].info.meta <= log[j].estimate * RECLAIM_WINDOW_BUDGET_K
          || log[k].info.blobs + log[k].info.meta <= c.budgetBytes)
    ensures Run(c, INIT, evs).log[k].info.trigger.Meta?
  {
    RunInv(c, INIT, evs);
    assert VerdictEarned(c, Run(c, INIT, evs).log, k);
  }

  /** Two calls to the host are five minutes apart, whichever drives they are about. */
  lemma RotationsAreApart(c: Settings, evs: seq<Event>, j: nat, k: nat)
    requires Valid(c, INIT, evs) && j < k < |Run(c, INIT, evs).log|
    requires Run(c, INIT, evs).log[j].OverBudget? && Run(c, INIT, evs).log[k].OverBudget?
    ensures Run(c, INIT, evs).log[j].at + RECLAIM_MIN_ROTATE_MS <= Run(c, INIT, evs).log[k].at
  {
    RunInv(c, INIT, evs);
    assert FloorHeld(Run(c, INIT, evs).log, j, k);
  }

  /** A handler starts at most three probes in its life, and none while one runs or after one measured. */
  lemma ProbesAreBounded(c: Settings, evs: seq<Event>)
    requires Valid(c, INIT, evs)
    ensures Probes(Run(c, INIT, evs).log) <= PROBE_MAX_TRIES
  {
    RunInv(c, INIT, evs);
  }

  lemma ProbeStartsAlone(c: Settings, s: State, ev: Event)
    requires Enabled(s, ev) && Probes(Step(c, s, ev).log) > Probes(s.log)
    ensures !s.probe.running && !Measures(s.probe) && s.probe.tries < PROBE_MAX_TRIES
  {
    StepExtends(c, s, ev);
    var t := Step(c, s, ev);
    if |t.log| > |s.log| {
      assert t.log == s.log + [t.log[|s.log|]];
      ProbesAppend(s.log, t.log[|s.log|]);
    }
  }

  /** What the probe measured stands for the rest of the handler's life. */
  lemma {:induction false} MeasuredVerdictStands(c: Settings, s: State, evs: seq<Event>)
    requires Valid(c, s, evs) && Inv(c, s) && Measures(s.probe)
    ensures Run(c, s, evs).probe == s.probe
    decreases |evs|
  {
    if evs == [] {
    } else {
      StepLogOk(c, s, evs[0]);
      StepProbesOk(c, s, evs[0]);
      StepSlotsOk(c, s, evs[0]);
      MeasuredVerdictStands(c, Step(c, s, evs[0]), evs[1..]);
    }
  }

  // ---- every pass is judged --------------------------------------------------------------------

  /** What a check will be told: how its pass went, what the probe answers, and the bytes, read with the clock. */
  datatype Facts = Facts(ran: bool, answer: Option<Punch>, bytes: Measured, now: int)

  /** The next event of one slot. */
  function NextOf(s: State, i: nat, f: Facts): Event
    requires i < |s.slots| && !s.slots[i].pc.Done?
  {
    match s.slots[i].pc
    case Passing(_) => PassEnds(i, f.ran)
    case Probing(_, _) => if ProbeOver(s, s.slots[i].pc) then ProbeAwaited(i) else ProbeSettles(f.answer)
    case Deciding(_, _) => Decide(i)
    case Measuring(_) => Measure(i, f.bytes, f.now)
  }

  function Left(s: State, pc: Pc): nat {
    match pc
    case Passing(_) => 5
    case Probing(_, _) => if ProbeOver(s, pc) then 3 else 4
    case Deciding(_, _) => 2
    case Measuring(_) => 1
    case Done => 0
  }

  lemma NextAdvances(c: Settings, s: State, i: nat, f: Facts)
    requires i < |s.slots| && !s.slots[i].pc.Done?
    ensures
      var t := Step(c, s, NextOf(s, i, f));
      && Enabled(s, NextOf(s, i, f)) && i < |t.slots| && t.slots[i].drive == s.slots[i].drive
      && Left(t, t.slots[i].pc) < Left(s, s.slots[i].pc)
  {}

  /** One slot taken to its end, nothing else happening meanwhile. */
  function Finished(c: Settings, s: State, i: nat, f: Facts): State
    requires i < |s.slots|
    decreases Left(s, s.slots[i].pc)
  {
    if s.slots[i].pc.Done? then s
    else
      NextAdvances(c, s, i, f);
      Finished(c, Step(c, s, NextOf(s, i, f)), i, f)
  }

  lemma {:induction false} FinishedIsReached(c: Settings, s: State, i: nat, f: Facts)
    requires i < |s.slots|
    ensures exists evs :: Valid(c, s, evs) && Run(c, s, evs) == Finished(c, s, i, f)
    decreases Left(s, s.slots[i].pc)
  {
    if s.slots[i].pc.Done? {
      assert Valid(c, s, []) && Run(c, s, []) == s;
    } else {
      var ev := NextOf(s, i, f);
      NextAdvances(c, s, i, f);
      FinishedIsReached(c, Step(c, s, ev), i, f);
      var evs :| Valid(c, Step(c, s, ev), evs) && Run(c, Step(c, s, ev), evs) == Finished(c, s, i, f);
      assert ([ev] + evs)[1..] == evs;
      assert Valid(c, s, [ev] + evs) && Run(c, s, [ev] + evs) == Finished(c, s, i, f);
    }
  }

  /**
   What the store is known to do once the check has asked: what it knew, or what a probe it may still start
   answers.
   */
  function Known(s: State, f: Facts): Option<Punch> {
    if !Measures(s.probe) && s.probe.tries < 3 && f.answer.Some? then f.answer else s.probe.punch
  }

  /**
   The blob half is on: budgeted, not latched off, not known to free bytes, and the pass ran or the store is
   known not to.
   */
  predicate BlobHalf(c: Settings, s: State, f: Facts) {
    && c.budgetBytes > 0 && !s.latches.budgetOff
    && var p := Known(s, f);
    && !(p.Some? && p.value.ok && p.value.canPunch)
    && (f.ran || (p.Some? && p.value.ok && !p.value.canPunch))
  }

  /** The budget, raised to three of the windows seen on the drive. */
  function Ceiling(c: Settings, s: State, d: Drive): nat {
    if d in s.window && 3 * s.window[d] > c.budgetBytes then 3 * s.window[d] else c.budgetBytes
  }

  /** The call to the host that a finished check makes, if any, with the blob half on or off. */
  function CallWith(c: Settings, s: State, d: Drive, f: Facts, blobOn: bool): Option<Info> {
    if !f.bytes.Bytes? || f.now < s.latches.lastOverBudget + 5 * 60 * 1000 then None
    else
      var seen := if d in s.window then s.window[d] else 0;
      var total := f.bytes.blobs + f.bytes.meta;
      if blobOn && total > Ceiling(c, s, d) then
        Some(Info(Budget, f.bytes.blobs, f.bytes.meta, Some(Ceiling(c, s, d)), seen))
      else if 0 < c.metaBudgetBytes < f.bytes.meta then Some(Info(Meta, f.bytes.blobs, f.bytes.meta, None, seen))
      else None
  }

  function Call(c: Settings, s: State, d: Drive, f: Facts): Option<Info> {
    if !c.hasCallback || s.latches.unmeasurable then None else CallWith(c, s, d, f, BlobHalf(c, s, f))
  }

  function WithCall(log: seq<Log>, d: Drive, now: int, call: Option<Info>): seq<Log> {
    if call.Some? then log + [OverBudget(d, now, call.value)] else log
  }

  lemma MeasuredIsJudged(c: Settings, s: State, i: nat, f: Facts)
    requires i < |s.slots| && s.slots[i].pc.Measuring?
    ensures
      var t, d := Finished(c, s, i, f), s.slots[i].drive;
      t.log == WithCall(s.log, d, f.now, CallWith(c, s, d, f, s.slots[i].pc.blobOn))
  {
    var t := Step(c, s, NextOf(s, i, f));
    assert Finished(c, s, i, f) == Finished(c, t, i, f) == t;
  }

  lemma DecidedIsJudged(c: Settings, s: State, i: nat, f: Facts)
    requires i < |s.slots| && s.slots[i].pc.Deciding?
    ensures
      var t, d, pc := Finished(c, s, i, f), s.slots[i].drive, s.slots[i].pc;
      var blobOn := pc.applies && (pc.ran || ProvedCannotPunch(s.probe));
      t.log == WithCall(s.log, d, f.now, CallWith(c, s, d, f, blobOn))
  {
    var pc := s.slots[i].pc;
    var blobOn := pc.applies && (pc.ran || ProvedCannotPunch(s.probe));
    NextAdvances(c, s, i, f);
    var t := Step(c, s, NextOf(s, i, f));
    assert Finished(c, s, i, f) == Finished(c, t, i, f);
    if t.slots[i].pc.Measuring? {
      MeasuredIsJudged(c, t, i, f);
      assert CallWith(c, t, s.slots[i].drive, f, blobOn) == CallWith(c, s, s.slots[i].drive, f, blobOn);
    } else {
      assert Finished(c, t, i, f) == t;
    }
  }

  /** The verdict is in: the blob half applies unless the store is known to free bytes. */
  lemma AppliedIsJudged(c: Settings, s: State, i: nat, f: Facts)
    requires i < |s.slots|
    ensures
      var t, d := Finished(c, Applied(s, i, f.ran), i, f), s.slots[i].drive;
      var blobOn := !CanPunch(s.probe) && (f.ran || ProvedCannotPunch(s.probe));
      t.log == WithCall(s.log, d, f.now, CallWith(c, s, d, f, blobOn))
  {
    var t, d := Applied(s, i, f.ran), s.slots[i].drive;
    var blobOn := !CanPunch(s.probe) && (f.ran || ProvedCannotPunch(s.probe));
    DecidedIsJudged(c, t, i, f);
    assert CallWith(c, t, d, f, blobOn) == CallWith(c, s, d, f, blobOn);
  }

  /** The check waits for a probe, its own or the one under way. */
  lemma ProbedIsJudged(c: Settings, s: State, i: nat, f: Facts)
    requires i < |s.slots| && s.slots[i].pc == Probing(s.probe.tries, f.ran) && s.probe.running
    ensures
      var t, d := Finished(c, s, i, f), s.slots[i].drive;
      var punch := if f.answer.Some? then f.answer else s.probe.punch;
      var p := Probe(punch, false, s.probe.tries);
      var blobOn := !CanPunch(p) && (f.ran || ProvedCannotPunch(p));
      t.log == WithCall(s.log, d, f.now, CallWith(c, s, d, f, blobOn))
  {
    var d := s.slots[i].drive;
    NextAdvances(c, s, i, f);
    var t := Step(c, s, NextOf(s, i, f));
    assert Finished(c, s, i, f) == Finished(c, t, i, f);
    NextAdvances(c, t, i, f);
    var u := Step(c, t, NextOf(t, i, f));
    assert Finished(c, t, i, f) == Finished(c, u, i, f);
    AppliedIsJudged(c, t, i, f);
    assert forall on :: CallWith(c, t, d, f, on) == CallWith(c, s, d, f, on);
  }

  /** Whether the check starts a probe. */
  predicate Asks(c: Settings, s: State) {
    && c.hasCallback && !s.latches.unmeasurable && c.budgetBytes > 0 && !s.latches.budgetOff
    && !Measures(s.probe) && s.probe.tries < 3
  }

  /**
   From any reachable state the check behind a pass can be taken to its end, and then it has called the host exactly
   when and as it should: with a callback, a store that can be measured and the rotation floor past, for the blobs
   when that half is on and they are over the ceiling, and else for the metadata when that is over its own budget.
   It has started a probe exactly when one was wanted and none was running.
   */
  lemma EveryPassIsJudged(c: Settings, before: seq<Event>, i: nat, f: Facts)
    requires Valid(c, INIT, before)
    requires var s := Run(c, INIT, before); i < |s.slots| && s.slots[i].pc.Passing?
    ensures
      var s := Run(c, INIT, before);
      var d := s.slots[i].drive;
      var t := Finished(c, s, i, f);
      && (exists evs :: Valid(c, s, evs) && Run(c, s, evs) == t)
      && t.log ==
         WithCall(if Asks(c, s) && !s.probe.running then s.log + [Probed] else s.log, d, f.now, Call(c, s, d, f))
  {
    var s := Run(c, INIT, before);
    RunInv(c, INIT, before);
    FinishedIsReached(c, s, i, f);
    PassIsJudged(c, s, i, f);
  }

  lemma PassAsks(c: Settings, s: State, i: nat, f: Facts)
    requires Inv(c, s) && i < |s.slots| && s.slots[i].pc.Passing? && Asks(c, s)
    ensures
      var t, d := Finished(c, Check(c, s, i, f.ran), i, f), s.slots[i].drive;
      t.log == WithCall(if s.probe.running then s.log else s.log + [Probed], d, f.now,
                        CallWith(c, s, d, f, BlobHalf(c, s, f)))
  {
    var t, d := Check(c, s, i, f.ran), s.slots[i].drive;
    ProbedIsJudged(c, t, i, f);
    assert CallWith(c, t, d, f, BlobHalf(c, s, f)) == CallWith(c, s, d, f, BlobHalf(c, s, f));
  }

  lemma PassDoesNotAsk(c: Settings, s: State, i: nat, f: Facts)
    requires Inv(c, s) && i < |s.slots| && s.slots[i].pc.Passing? && !Asks(c, s) && c.hasCallback
             && !s.latches.unmeasurable
    ensures
      var t, d := Finished(c, Check(c, s, i, f.ran), i, f), s.slots[i].drive;
      t.log == WithCall(s.log, d, f.now, CallWith(c, s, d, f, BlobHalf(c, s, f)))
  {
    var t, d := Check(c, s, i, f.ran), s.slots[i].drive;
    if t.slots[i].pc.Deciding? {
      AppliedIsJudged(c, s, i, f);
    } else if t.slots[i].pc.Measuring? {
      MeasuredIsJudged(c, t, i, f);
      assert CallWith(c, t, d, f, false) == CallWith(c, s, d, f, false);
    } else {
      assert Finished(c, t, i, f) == t;
    }
  }

  lemma PassIsJudged(c: Settings, s: State, i: nat, f: Facts)
    requires Inv(c, s) && i < |s.slots| && s.slots[i].pc.Passing?
    ensures
      var t, d := Finished(c, s, i, f), s.slots[i].drive;
      t.log == WithCall(if Asks(c, s) && !s.probe.running then s.log + [Probed] else s.log, d, f.now, Call(c, s, d, f))
  {
    var t := Step(c, s, NextOf(s, i, f));
    NextAdvances(c, s, i, f);
    assert Finished(c, s, i, f) == Finished(c, t, i, f) && t == Check(c, s, i, f.ran);
    if Asks(c, s) {
      PassAsks(c, s, i, f);
    } else if c.hasCallback && !s.latches.unmeasurable {
      PassDoesNotAsk(c, s, i, f);
    } else {
      assert Finished(c, t, i, f) == t;
    }
  }

  // ---- what is started, seen and latched ---------------------------------------------------------

  /** When the last pass over the drive started; 0 before the first. */
  function LastStart(log: seq<Log>, d: Drive): int {
    if log == [] then 0
    else
      var n := |log| - 1;
      if log[n].Started? && log[n].drive == d then log[n].at else LastStart(log[..n], d)
  }

  /** The largest window seen on the drive; 0 before the first. */
  function LargestSeen(log: seq<Log>, d: Drive): nat {
    if log == [] then 0
    else
      var n := |log| - 1;
      var before := LargestSeen(log[..n], d);
      if log[n].Observed? && log[n].drive == d && log[n].estimate > before then log[n].estimate else before
  }

  /** What the state remembers of a drive is what the log says. */
  predicate Remembers(s: State, d: Drive) {
    LastOf(s, d) == LastStart(s.log, d) && WindowOf(s, d) == LargestSeen(s.log, d)
  }

  lemma LogsOne(log: seq<Log>, e: Log, d: Drive)
    ensures LastStart(log + [e], d) == if e.Started? && e.drive == d then e.at else LastStart(log, d)
    ensures LargestSeen(log + [e], d) ==
      if e.Observed? && e.drive == d && e.estimate > LargestSeen(log, d) then e.estimate else LargestSeen(log, d)
  {
    assert (log + [e])[..|log|] == log;
  }

  lemma ServeRemembers(c: Settings, s: State, ev: Event, d: Drive)
    requires Enabled(s, ev) && Remembers(s, d) && ev.Serve?
    ensures Remembers(Step(c, s, ev), d)
  {
    LogsOne(s.log, Started(ev.drive, ev.now), d);
  }

  lemma SinkRemembers(c: Settings, s: State, ev: Event, d: Drive)
    requires Enabled(s, ev) && Remembers(s, d) && ev.Sink?
    ensures Remembers(Step(c, s, ev), d)
  {
    LogsOne(s.log, Observed(s.slots[ev.slot].drive, Estimate(ev.bytes, ev.listed, ev.resolved)), d);
  }

  lemma OtherKeeps(c: Settings, s: State, ev: Event)
    requires Enabled(s, ev) && !ev.Serve? && !ev.Sink?
    ensures
      var t := Step(c, s, ev);
      && t.last == s.last && t.window == s.window
      && (t.log == s.log || exists e: Log :: t.log == s.log + [e] && !e.Started? && !e.Observed?)
  {
    var t := Step(c, s, ev);
    if |t.log| > |s.log| { assert t.log == s.log + [t.log[|s.log|]]; }
  }

  lemma OtherRemembers(c: Settings, s: State, ev: Event, d: Drive)
    requires Enabled(s, ev) && Remembers(s, d) && !ev.Serve? && !ev.Sink?
    ensures Remembers(Step(c, s, ev), d)
  {
    var t := Step(c, s, ev);
    OtherKeeps(c, s, ev);
    if t.log != s.log {
      var e: Log :| t.log == s.log + [e] && !e.Started? && !e.Observed?;
      LogsOne(s.log, e, d);
    }
  }

  lemma StepRemembers(c: Settings, s: State, ev: Event, d: Drive)
    requires Enabled(s, ev) && Remembers(s, d)
    ensures Remembers(Step(c, s, ev), d)
  {
    if ev.Serve? { ServeRemembers(c, s, ev, d); }
    else if ev.Sink? { SinkRemembers(c, s, ev, d); }
    else { OtherRemembers(c, s, ev, d); }
  }

  lemma {:induction false} RunRemembers(c: Settings, s: State, evs: seq<Event>, d: Drive)
    requires Valid(c, s, evs) && Remembers(s, d)
    ensures Remembers(Run(c, s, evs), d)
    decreases |evs|
  {
    if evs == [] {
    } else {
      StepRemembers(c, s, evs[0], d);
      RunRemembers(c, Step(c, s, evs[0]), evs[1..], d);
    }
  }

  /** A served playlist starts a pass exactly when reclaim is on and the drive's last pass is an interval ago. */
  lemma ServeStartsIff(c: Settings, before: seq<Event>, d: Drive, enabled: bool, now: int)
    requires Valid(c, INIT, before)
    ensures
      var s := Run(c, INIT, before);
      var t := Step(c, s, Serve(d, enabled, now));
      if enabled && now >= LastStart(s.log, d) + c.intervalMs then
        t.slots == s.slots + [Slot(d, Passing(false))] && t.log == s.log + [Started(d, now)]
        && t.latches == s.latches && t.probe == s.probe && t.window == s.window
      else t == s
  {
    RunRemembers(c, INIT, before, d);
  }

  /** A pass tells its window once; the drive's window is the largest told, and an empty one says nothing. */
  lemma WindowIsTheLargestSeen(c: Settings, before: seq<Event>, ev: Event, d: Drive)
    requires Valid(c, INIT, before) && ev.Sink? && Enabled(Run(c, INIT, before), ev)
    ensures
      var s := Run(c, INIT, before);
      var t := Step(c, s, ev);
      && WindowOf(t, d) == LargestSeen(t.log, d) && !Enabled(t, ev)
      && t.log ==
         (if ev.bytes == 0 then s.log
          else s.log + [Observed(s.slots[ev.slot].drive, Estimate(ev.bytes, ev.listed, ev.resolved))])
  {
    RunRemembers(c, INIT, before, d);
    StepRemembers(c, Run(c, INIT, before), ev, d);
  }

  /** A complete listing, or one of which nothing resolved, is taken as it was measured. */
  lemma CompleteListingIsTaken(bytes: nat, listed: nat, resolved: nat)
    requires resolved == 0 || resolved >= listed
    ensures Estimate(bytes, listed, resolved) == bytes
  {}

  /** Only a store that cannot be measured is given up on; and once it is, every later check ends at once. */
  lemma {:induction false} UnmeasurableIsFinal(c: Settings, s: State, evs: seq<Event>, i: nat, ran: bool)
    requires Valid(c, s, evs) && s.latches.unmeasurable
    ensures
      var t := Run(c, s, evs);
      && t.latches.unmeasurable
      && (Enabled(t, PassEnds(i, ran)) ==> Step(c, t, PassEnds(i, ran)) == SetPc(t, i, Done))
    decreases |evs|
  {
    if evs == [] {
    } else {
      UnmeasurableIsFinal(c, Step(c, s, evs[0]), evs[1..], i, ran);
    }
  }

  /** Some half of the check is on, and there is a host to tell. */
  predicate Useful(c: Settings, pc: Pc) {
    pc.Measuring? ==> c.hasCallback && ((pc.blobOn && c.budgetBytes > 0) || c.metaBudgetBytes > 0)
  }

  predicate Checking(c: Settings, pc: Pc) { pc.Probing? || pc.Deciding? ==> c.hasCallback && c.budgetBytes > 0 }

  lemma PassEndsUseful(c: Settings, s: State, j: nat, ran: bool, i: nat)
    requires j < |s.slots| && i < |s.slots| && Useful(c, s.slots[i].pc) && Checking(c, s.slots[i].pc)
    ensures
      var t := Check(c, s, j, ran);
      |t.slots| == |s.slots| && Useful(c, t.slots[i].pc) && Checking(c, t.slots[i].pc)
  {}

  lemma StepUseful(c: Settings, s: State, ev: Event, i: nat)
    requires Enabled(s, ev) && i < |Step(c, s, ev).slots|
    requires i < |s.slots| ==> Useful(c, s.slots[i].pc) && Checking(c, s.slots[i].pc)
    ensures Useful(c, Step(c, s, ev).slots[i].pc) && Checking(c, Step(c, s, ev).slots[i].pc)
  {
    if ev.PassEnds? {
      assert |Check(c, s, ev.slot, ev.ran).slots| == |s.slots|;
      PassEndsUseful(c, s, ev.slot, ev.ran, i);
    }
  }

  lemma {:induction false} RunUseful(c: Settings, s: State, evs: seq<Event>)
    requires Valid(c, s, evs)
    requires forall i :: 0 <= i < |s.slots| ==> Useful(c, s.slots[i].pc) && Checking(c, s.slots[i].pc)
    ensures forall i :: 0 <= i < |Run(c, s, evs).slots| ==> Useful(c, Run(c, s, evs).slots[i].pc)
    decreases |evs|
  {
    if evs == [] {
    } else {
      var t := Step(c, s, evs[0]);
      forall i | 0 <= i < |t.slots| ensures Useful(c, t.slots[i].pc) && Checking(c, t.slots[i].pc) {
        StepUseful(c, s, evs[0], i);
      }
      RunUseful(c, t, evs[1..]);
    }
  }

  /** A replica's bytes are read only when there is a host to tell and some half of the check is on. */
  lemma MeasuresOnlyWhenUseful(c: Settings, evs: seq<Event>, i: nat)
    requires Valid(c, INIT, evs) && i < |Run(c, INIT, evs).slots| && Run(c, INIT, evs).slots[i].pc.Measuring?
    ensures c.hasCallback && ((Run(c, INIT, evs).slots[i].pc.blobOn && c.budgetBytes > 0) || c.metaBudgetBytes > 0)
  {
    RunUseful(c, INIT, evs);
  }

  lemma OnlyUnmeasurableLatches(c: Settings, s: State, ev: Event)
    requires Enabled(s, ev)
    ensures Step(c, s, ev).latches.unmeasurable <==> s.latches.unmeasurable || (ev.Measure? && ev.result.Unmeasurable?)
    ensures Step(c, s, ev).latches.budgetOff && !s.latches.budgetOff ==> CanPunch(s.probe)
  {}

  // ---- after a good verdict --------------------------------------------------------------------

  /** A check that got past the gate before the store was proved able to punch. */
  predicate Armed(pc: Pc) {
    pc == Measuring(true) || pc == Deciding(true, true)
  }

  predicate NoneArmed(s: State) { forall i :: 0 <= i < |s.slots| ==> !Armed(s.slots[i].pc) }

  predicate BlobVerdictSince(log: seq<Log>, from: nat) {
    exists k :: from <= k < |log| && log[k].OverBudget? && log[k].info.trigger.Budget?
  }

  lemma {:induction false} UnarmedStaysQuiet(c: Settings, s: State, evs: seq<Event>, from: nat)
    requires Valid(c, s, evs) && Inv(c, s) && CanPunch(s.probe) && NoneArmed(s) && !BlobVerdictSince(s.log, from)
    ensures !BlobVerdictSince(Run(c, s, evs).log, from)
    decreases |evs|
  {
    if evs == [] {
    } else {
      var t := Step(c, s, evs[0]);
      UnarmedStep(c, s, evs[0], from);
      StepLogOk(c, s, evs[0]);
      StepProbesOk(c, s, evs[0]);
      StepSlotsOk(c, s, evs[0]);
      UnarmedStaysQuiet(c, t, evs[1..], from);
    }
  }

  lemma UnarmedStep(c: Settings, s: State, ev: Event, from: nat)
    requires Enabled(s, ev) && ProbesOk(s) && CanPunch(s.probe) && NoneArmed(s) && !BlobVerdictSince(s.log, from)
    ensures CanPunch(Step(c, s, ev).probe) && NoneArmed(Step(c, s, ev)) && !BlobVerdictSince(Step(c, s, ev).log, from)
  {
    var t := Step(c, s, ev);
    StepExtends(c, s, ev);
    forall k | from <= k < |t.log| ensures !(t.log[k].OverBudget? && t.log[k].info.trigger.Budget?) {
      if k < |s.log| { assert t.log[k] == s.log[k]; }
    }
  }

  /** A run from here on that ends up handing the host a blob verdict. */
  predicate Reports(c: Settings, s: State, evs: seq<Event>) {
    Valid(c, s, evs) && BlobVerdictSince(Run(c, s, evs).log, |s.log|)
  }

  /** How an armed check still reports: a large replica, read once the rotation floor has passed. */
  function LateReport(c: Settings, s: State, i: nat): seq<Event>
    requires i < |s.slots| && Armed(s.slots[i].pc)
  {
    (if s.slots[i].pc.Deciding? then [Decide(i)] else []) +
    [Measure(i, Bytes(EffectiveBudget(c, s, s.slots[i].drive) + 1, 0),
             s.latches.lastOverBudget + RECLAIM_MIN_ROTATE_MS)]
  }

  lemma ArmedMayReport(c: Settings, s: State, i: nat)
    requires i < |s.slots| && Armed(s.slots[i].pc)
    ensures Reports(c, s, LateReport(c, s, i))
  {
    var evs := LateReport(c, s, i);
    if s.slots[i].pc.Deciding? {
      var t := Step(c, s, Decide(i));
      assert evs[1..] == LateReport(c, t, i);
      ArmedMeasures(c, t, i);
    } else {
      ArmedMeasures(c, s, i);
    }
  }

  lemma ArmedMeasures(c: Settings, s: State, i: nat)
    requires i < |s.slots| && s.slots[i].pc == Measuring(true)
    ensures Reports(c, s, LateReport(c, s, i))
  {
    var evs := LateReport(c, s, i);
    var d := s.slots[i].drive;
    assert evs ==
           [Measure(i, Bytes(EffectiveBudget(c, s, d) + 1, 0), s.latches.lastOverBudget + RECLAIM_MIN_ROTATE_MS)];
    assert evs[1..] == [] && Run(c, s, evs) == Step(c, s, evs[0]);
    var log := Step(c, s, evs[0]).log;
    assert log[|s.log|].OverBudget? && log[|s.log|].info.trigger.Budget?;
  }

  /**
   The latch does not recall checks already under way: once a run has proved the store able to punch, a blob
   verdict can still follow exactly when some check passed the gate earlier and has not measured yet.
   */
  lemma LateVerdictIff(c: Settings, before: seq<Event>)
    requires Valid(c, INIT, before) && CanPunch(Run(c, INIT, before).probe)
    ensures
      var s := Run(c, INIT, before);
      !NoneArmed(s) <==> exists evs :: Reports(c, s, evs)
  {
    var s := Run(c, INIT, before);
    RunInv(c, INIT, before);
    if !NoneArmed(s) {
      var i :| 0 <= i < |s.slots| && Armed(s.slots[i].pc);
      ArmedMayReport(c, s, i);
    } else {
      forall evs | Valid(c, s, evs) ensures !Reports(c, s, evs) {
        UnarmedStaysQuiet(c, s, evs, |s.log|);
      }
    }
  }

  /**
   A run to such a check: drive 0's pass ends on a failed probe and its check goes through the gate; before it has
   measured, the check of drive 1 probes again and the store is proved able to punch.
   */
  const LATE_SETTINGS := Settings(0, 1, 0, true)

  const THROUGH_THE_GATE := [
    Serve(0, true, 0), PassEnds(0, true), ProbeSettles(Some(Punch(false, false))), ProbeAwaited(0), Decide(0)
  ]

  const PROVED_LATER := [Serve(1, true, 0), PassEnds(1, true), ProbeSettles(Some(Punch(true, true)))]

  lemma {:induction false} RunSplits(c: Settings, s: State, evs: seq<Event>, more: seq<Event>)
    requires Valid(c, s, evs) && Valid(c, Run(c, s, evs), more)
    ensures Valid(c, s, evs + more) && Run(c, s, evs + more) == Run(c, Run(c, s, evs), more)
    decreases |evs|
  {
    if evs == [] {
      assert evs + more == more;
    } else {
      assert (evs + more)[1..] == evs[1..] + more;
      RunSplits(c, Step(c, s, evs[0]), evs[1..], more);
    }
  }

  lemma GoesThroughTheGate(c: Settings)
    requires c == LATE_SETTINGS
    ensures Valid(c, INIT, THROUGH_THE_GATE)
    ensures
      var s := Run(c, INIT, THROUGH_THE_GATE);
      && s.slots == [Slot(0, Measuring(true))] && s.last == map[0 := 0]
      && s.probe == Probe(Some(Punch(false, false)), false, 1)
      && !s.latches.budgetOff && !s.latches.unmeasurable
  {
    var s1 := Step(c, INIT, THROUGH_THE_GATE[0]);
    var s2 := Step(c, s1, THROUGH_THE_GATE[1]);
    assert s2.slots == [Slot(0, Probing(1, true))];
    var s3 := Step(c, s2, THROUGH_THE_GATE[2]);
    var s4 := Step(c, s3, THROUGH_THE_GATE[3]);
    assert s4.slots == [Slot(0, Deciding(true, true))];
    assert Enabled(s4, Decide(0)) && THROUGH_THE_GATE[4..] == [Decide(0)];
    assert Valid(c, s4, THROUGH_THE_GATE[4..]) && Run(c, s4, THROUGH_THE_GATE[4..]) == Step(c, s4, Decide(0));
    assert THROUGH_THE_GATE[3..][1..] == THROUGH_THE_GATE[4..] && THROUGH_THE_GATE[2..][1..] == THROUGH_THE_GATE[3..];
  }

  lemma ProvedWhileMeasuring(c: Settings, s: State)
    requires c == LATE_SETTINGS && s.slots == [Slot(0, Measuring(true))] && s.last == map[0 := 0]
    requires s.probe == Probe(Some(Punch(false, false)), false, 1) && !s.latches.budgetOff && !s.latches.unmeasurable
    ensures Valid(c, s, PROVED_LATER)
    ensures CanPunch(Run(c, s, PROVED_LATER).probe) && !NoneArmed(Run(c, s, PROVED_LATER))
  {
    var s1 := Step(c, s, PROVED_LATER[0]);
    var s2 := Step(c, s1, PROVED_LATER[1]);
    assert s2.probe.running && s2.slots[0] == s.slots[0];
    var s3 := Step(c, s2, PROVED_LATER[2]);
    assert Run(c, s2, PROVED_LATER[2..]) == s3 && Armed(s3.slots[0].pc);
  }

  /** So the condition is met after a run from the start: a check is armed and the store is proved able to punch. */
  lemma LateCheckHappens()
    ensures Valid(LATE_SETTINGS, INIT, THROUGH_THE_GATE + PROVED_LATER)
    ensures
      var s := Run(LATE_SETTINGS, INIT, THROUGH_THE_GATE + PROVED_LATER);
      && CanPunch(s.probe) && !NoneArmed(s)
      && exists evs :: Reports(LATE_SETTINGS, s, evs)
  {
    var c := LATE_SETTINGS;
    GoesThroughTheGate(c);
    ProvedWhileMeasuring(c, Run(c, INIT, THROUGH_THE_GATE));
    RunSplits(c, INIT, THROUGH_THE_GATE, PROVED_LATER);
    LateVerdictIff(c, THROUGH_THE_GATE + PROVED_LATER);
  }

  // ---- the code --------------------------------------------------------------------------------

  class Reclaim {
    const settings: Settings
    var last: map<Drive, int>
    var window: map<Drive, nat>
    var punch: Option<Punch>
    var punching: bool
    var punchTries: nat
    var unmeasurable: bool
    var budgetOff: bool
    var lastOverBudget: int
    var slots: seq<Slot>
    ghost var log: seq<Log>

    ghost function View(): State
      reads this
    {
      State(last, window, Probe(punch, punching, punchTries), Latches(unmeasurable, budgetOff, lastOverBudget), slots,
            log)
    }

    constructor (c: Settings)
      ensures settings == c && View() == INIT
    {
      settings := c;
      last, window, punch, punching, punchTries := map[], map[], None, false, 0;
      unmeasurable, budgetOff, lastOverBudget, slots, log := false, false, 0, [], [];
    }

    /** Called with a live playlist just served; throttled per drive. */
    method Update(drive: Drive, enabled: bool, now: int)
      modifies this
      ensures View() == Step(settings, old(View()), Serve(drive, enabled, now))
    {
      if !enabled { return; }
      if now - (if drive in last then last[drive] else 0) < settings.intervalMs { return; }
      last := last[drive := now];
      slots := slots + [Slot(drive, Passing(false))];
      log := log + [Started(drive, now)];
    }

    /** The pass tells the sink what its window holds. */
    method ObserveWindow(i: nat, bytes: nat, listed: nat, resolved: nat)
      requires Enabled(View(), Sink(i, bytes, listed, resolved))
      modifies this
      ensures View() == Step(settings, old(View()), Sink(i, bytes, listed, resolved))
    {
      Advance(i, Passing(true));
      if bytes == 0 { return; }
      var drive := slots[i].drive;
      var est :=
        if resolved > 0 && listed > resolved then (2 * (bytes * listed) + resolved) / (2 * resolved) else bytes;
      if est > (if drive in window then window[drive] else 0) { window := window[drive := est]; }
      log := log + [Observed(drive, est)];
    }

    method Advance(i: nat, pc: Pc)
      requires i < |slots|
      modifies this`slots
      ensures View() == SetPc(old(View()), i, pc)
    {
      slots := slots[i := slots[i].(pc := pc)];
    }

    /** The head of _budgetApplies: joins the probe under way, or starts one. */
    method StartPunching(i: nat, ran: bool)
      requires i < |slots|
      modifies this
      ensures View() == (var p := StartProbe(old(View())); SetPc(p, i, Probing(p.probe.tries, ran)))
    {
      if !punching {
        punchTries, punching := punchTries + 1, true;
        log := log + [Probed];
      }
      Advance(i, Probing(punchTries, ran));
    }

    /** The tail of _budgetApplies. */
    method Applies(i: nat, ran: bool)
      requires i < |slots|
      modifies this
      ensures View() == Applied(old(View()), i, ran)
    {
      if punch.Some? && punch.value.ok && punch.value.canPunch {
        budgetOff := true;
        Advance(i, Deciding(false, ran));
      } else {
        Advance(i, Deciding(true, ran));
      }
    }

    /** The pass is over: the budget check starts, and runs up to its first await. */
    method CheckBudget(i: nat, ran: bool)
      requires Enabled(View(), PassEnds(i, ran))
      modifies this
      ensures View() == Step(settings, old(View()), PassEnds(i, ran))
    {
      if !settings.hasCallback || unmeasurable {
        Advance(i, Done);
      } else if settings.budgetBytes > 0 && !budgetOff {
        if (punch.None? || !punch.value.ok) && punchTries < PROBE_MAX_TRIES {
          StartPunching(i, ran);
        } else {
          Applies(i, ran);
        }
      } else {
        Advance(i, if settings.metaBudgetBytes > 0 then Measuring(false) else Done);
      }
    }

    method PunchAnswers(answer: Option<Punch>)
      requires Enabled(View(), ProbeSettles(answer))
      modifies this
      ensures View() == Step(settings, old(View()), ProbeSettles(answer))
    {
      if answer.Some? { punch := answer; }
      punching := false;
    }

    method PunchAwaited(i: nat)
      requires Enabled(View(), ProbeAwaited(i))
      modifies this
      ensures View() == Step(settings, old(View()), ProbeAwaited(i))
    {
      Applies(i, slots[i].pc.ran);
    }

    method Gate(i: nat)
      requires Enabled(View(), Decide(i))
      modifies this
      ensures View() == Step(settings, old(View()), Decide(i))
    {
      var blobOn := slots[i].pc.applies;
      var provedCannotPunch := punch.Some? && punch.value.ok && !punch.value.canPunch;
      if blobOn && !slots[i].pc.ran && !provedCannotPunch { blobOn := false; }
      Advance(i, if !blobOn && settings.metaBudgetBytes == 0 then Done else Measuring(blobOn));
    }

    method Measure(i: nat, r: Measured, now: int)
      requires Enabled(View(), Event.Measure(i, r, now))
      modifies this
      ensures View() == Step(settings, old(View()), Event.Measure(i, r, now))
    {
      var drive, blobOn := slots[i].drive, slots[i].pc.blobOn;
      Advance(i, Done);
      match r {
        case Transient =>
        case Unmeasurable => unmeasurable := true;
        case Bytes(blobs, meta) => Report(drive, blobOn, blobs, meta, now);
      }
    }

    method Report(drive: Drive, blobOn: bool, blobs: nat, meta: nat, now: int)
      modifies this`lastOverBudget, this`log
      ensures View() == Judge(settings, old(View()), drive, blobOn, blobs, meta, now)
    {
      var windowBytes := if drive in window then window[drive] else 0;
      var scaled := windowBytes * RECLAIM_WINDOW_BUDGET_K;
      var budget := if scaled > settings.budgetBytes then scaled else settings.budgetBytes;
      var trigger: Option<Trigger> := None;
      if blobOn && meta + blobs > budget {
        trigger := Some(Budget);
      } else if settings.metaBudgetBytes > 0 && meta > settings.metaBudgetBytes {
        trigger := Some(Meta);
      }
      if trigger.None? { return; }
      if now - lastOverBudget < RECLAIM_MIN_ROTATE_MS { return; }
      lastOverBudget := now;
      var effective := if trigger.value.Budget? then Some(budget) else None;
      log := log + [OverBudget(drive, now, Info(trigger.value, blobs, meta, effective, windowBytes))];
    }
  }
}
