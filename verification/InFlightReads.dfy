/**
 In-flight media reads per drive, and the requests that hold them (sdk/serve.js: InFlight, and the exit
 paths of createDriveHandler's handler).

 A request takes a slot the moment a media target is bound and must give it back on every way out; a drain
 waiter on a drive settles when the last slot on it is given back, or when its timer fires.
 */
module InFlightReads {
  import opened Wrappers

  type Drive = nat

  /** One call of enter(): the flag its release function closes over. */
  datatype Ticket = Ticket(drive: Drive, left: bool)

  datatype Settled = Pending | Drained | TimedOut

  datatype Waiter = Waiter(drive: Drive, ms: int, settled: Settled)

  datatype Flight = Flight(counts: map<Drive, nat>, tickets: seq<Ticket>, waiters: seq<Waiter>)

  function Count(f: Flight, d: Drive): nat { if d in f.counts then f.counts[d] else 0 }

  /** A timeout that is not a finite number means: do not wait. */
  datatype Timeout = Finite(ms: int) | NotFinite

  function WaitMs(t: Timeout): (ms: int)
    ensures ms >= 0
  {
    if t.Finite? && t.ms >= 0 then t.ms else 0
  }

  // ---- the counter -----------------------------------------------------------------------------

  function Entered(f: Flight, d: Drive): Flight {
    f.(counts := f.counts[d := Count(f, d) + 1], tickets := f.tickets + [Ticket(d, false)])
  }

  function SettleAll(waiters: seq<Waiter>, d: Drive): (r: seq<Waiter>)
    ensures |r| == |waiters|
    ensures forall w :: 0 <= w < |r| ==>
      r[w] ==
      if waiters[w].drive == d && waiters[w].settled.Pending? then waiters[w].(settled := Drained) else waiters[w]
  {
    seq(|waiters|, w requires 0 <= w < |waiters| =>
      if waiters[w].drive == d && waiters[w].settled.Pending? then waiters[w].(settled := Drained) else waiters[w])
  }

  function Released(f: Flight, t: nat): Flight
    requires t < |f.tickets|
  {
    var d := f.tickets[t].drive;
    if f.tickets[t].left then f
    else
      var n := if Count(f, d) > 1 then Count(f, d) - 1 else 0;
      Flight(f.counts[d := n], f.tickets[t := Ticket(d, true)], if n > 0 then f.waiters else SettleAll(f.waiters, d))
  }

  function Awaited(f: Flight, d: Drive, timeout: Timeout): Flight {
    f.(waiters := f.waiters + [Waiter(d, WaitMs(timeout), if Count(f, d) == 0 then Drained else Pending)])
  }

  function Fired(f: Flight, w: nat): Flight
    requires w < |f.waiters|
  {
    if f.waiters[w].settled.Pending? then f.(waiters := f.waiters[w := f.waiters[w].(settled := TimedOut)]) else f
  }

  // ---- the requests ----------------------------------------------------------------------------

  /** Waiting: bound, answering or waiting for its entry. Piping: handed to pump. */
  datatype Stage = Waiting | Piping | Over

  datatype Request = Request(drive: Drive, media: bool, head: bool, ticket: Option<nat>, stage: Stage, closed: bool)

  datatype State = State(flight: Flight, requests: seq<Request>)

  const INIT := State(Flight(map[], [], []), [])

  datatype Answer = NotModified | NotFound | RangeNotSatisfiable

  datatype Event =
    | Bind(drive: Drive, media: bool, head: bool)
    | Answered(request: nat, answer: Answer)
    | HeadAnswered(request: nat)
    | Threw(request: nat)
    | Piped(request: nat)
    | PumpDone(request: nat)
    | Closed(request: nat)
    | WhenDrained(drive: Drive, timeout: Timeout)
    | TimerFires(waiter: nat)

  predicate Enabled(s: State, ev: Event) {
    match ev
    case Bind(_, _, _) => true
    case Answered(r, _) => r < |s.requests| && s.requests[r].stage.Waiting?
    case HeadAnswered(r) => r < |s.requests| && s.requests[r].stage.Waiting? && s.requests[r].head
    case Threw(r) => r < |s.requests| && s.requests[r].stage.Waiting?
    case Piped(r) => r < |s.requests| && s.requests[r].stage.Waiting? && !s.requests[r].head
    case PumpDone(r) => r < |s.requests| && s.requests[r].stage.Piping?
    case Closed(r) => r < |s.requests| && !s.requests[r].closed
    case WhenDrained(_, _) => true
    case TimerFires(w) => w < |s.flight.waiters|
  }

  predicate TicketsKnown(s: State) {
    forall r :: 0 <= r < |s.requests| && s.requests[r].ticket.Some? ==> s.requests[r].ticket.value < |s.flight.tickets|
  }

  /** Only media requests that send a body hold a slot. */
  function Bound(s: State, d: Drive, media: bool, head: bool): State {
    if media && !head then
      State(Entered(s.flight, d), s.requests + [Request(d, media, head, Some(|s.flight.tickets|), Waiting, false)])
    else
      s.(requests := s.requests + [Request(d, media, head, None, Waiting, false)])
  }

  function GiveBack(f: Flight, ticket: Option<nat>): Flight
    requires ticket.Some? ==> ticket.value < |f.tickets|
  {
    if ticket.Some? then Released(f, ticket.value) else f
  }

  function Leave(s: State, r: nat, now: Request): State
    requires TicketsKnown(s) && r < |s.requests|
  {
    State(GiveBack(s.flight, s.requests[r].ticket), s.requests[r := now])
  }

  function Step(s: State, ev: Event): State
    requires TicketsKnown(s) && Enabled(s, ev)
  {
    match ev
    case Bind(d, media, head) => Bound(s, d, media, head)
    case Answered(r, _) => Leave(s, r, s.requests[r].(stage := Over))
    case HeadAnswered(r) => s.(requests := s.requests[r := s.requests[r].(stage := Over)])
    case Threw(r) => Leave(s, r, s.requests[r].(stage := Over))
    case Piped(r) => s.(requests := s.requests[r := s.requests[r].(stage := Piping)])
    case PumpDone(r) => Leave(s, r, s.requests[r].(stage := Over))
    case Closed(r) =>
      Leave(s, r,
            s.requests[r].(closed := true, stage := if s.requests[r].stage.Piping? then Over else s.requests[r].stage))
    case WhenDrained(d, timeout) => s.(flight := Awaited(s.flight, d, timeout))
    case TimerFires(w) => s.(flight := Fired(s.flight, w))
  }

  // ---- invariants ------------------------------------------------------------------------------

  /** A GET media request bound to its drive and not finished. */
  predicate Unfinished(r: Request) { r.media && !r.head && !r.stage.Over? }

  predicate Active(r: Request) { Unfinished(r) && !r.closed }

  predicate HungUp(r: Request) { Unfinished(r) && r.closed }

  /** How many requests of a kind are bound to the drive. */
  function Tally(kind: Request -> bool, requests: seq<Request>, d: Drive): nat {
    if requests == [] then 0
    else
      var last := requests[|requests| - 1];
      Tally(kind, requests[..|requests| - 1], d) + One(kind, last, d)
  }

  function One(kind: Request -> bool, r: Request, d: Drive): nat { if kind(r) && r.drive == d then 1 else 0 }

  function ActiveOn(requests: seq<Request>, d: Drive): nat { Tally(Active, requests, d) }

  function UnfinishedOn(requests: seq<Request>, d: Drive): nat { Tally(Unfinished, requests, d) }

  /** A request's slot is open exactly while the request is active. */
  predicate SlotOk(s: State, r: nat)
    requires r < |s.requests|
  {
    var q := s.requests[r];
    && (q.ticket.Some? <==> q.media && !q.head)
    && (q.ticket.Some? ==>
          && q.ticket.value < |s.flight.tickets|
          && s.flight.tickets[q.ticket.value] == Ticket(q.drive, !Active(q)))
  }

  predicate OwnSlots(s: State) {
    forall q, r :: 0 <= q < r < |s.requests| && s.requests[q].ticket.Some? ==>
      s.requests[q].ticket != s.requests[r].ticket
  }

  /** A waiter is pending only while its drive is busy. */
  predicate WaiterOk(f: Flight, w: nat)
    requires w < |f.waiters|
  {
    f.waiters[w].settled.Pending? ==> Count(f, f.waiters[w].drive) > 0
  }

  ghost predicate Inv(s: State) {
    && (forall r :: 0 <= r < |s.requests| ==> SlotOk(s, r))
    && OwnSlots(s)
    && (forall d :: Count(s.flight, d) == ActiveOn(s.requests, d))
    && (forall w :: 0 <= w < |s.flight.waiters| ==> WaiterOk(s.flight, w))
  }

  lemma InvKnowsTickets(s: State)
    requires Inv(s)
    ensures TicketsKnown(s)
  {
    forall r | 0 <= r < |s.requests| && s.requests[r].ticket.Some?
      ensures s.requests[r].ticket.value < |s.flight.tickets|
    {
      assert SlotOk(s, r);
    }
  }

  /** Replacing one request changes the count by what that request contributes. */
  lemma {:induction false} ActiveAfter(requests: seq<Request>, r: nat, now: Request, d: Drive)
    requires r < |requests|
    ensures ActiveOn(requests[r := now], d) + One(Active, requests[r], d) == ActiveOn(requests, d) + One(Active, now, d)
  {
    var changed, last := requests[r := now], |requests| - 1;
    if r == last {
      assert changed[..last] == requests[..last];
    } else {
      assert changed[..last] == requests[..last][r := now];
      ActiveAfter(requests[..last], r, now, d);
    }
  }

  lemma ActiveAppend(requests: seq<Request>, q: Request, d: Drive)
    ensures ActiveOn(requests + [q], d) == ActiveOn(requests, d) + One(Active, q, d)
  {
    assert (requests + [q])[..|requests|] == requests;
  }

  lemma ReleasedCounts(f: Flight, t: nat, d: Drive)
    requires t < |f.tickets| && (!f.tickets[t].left ==> Count(f, f.tickets[t].drive) > 0)
    ensures Count(Released(f, t), d) + (if !f.tickets[t].left && f.tickets[t].drive == d then 1 else 0) == Count(f, d)
  {}

  lemma ReleasedWaiters(f: Flight, t: nat)
    requires t < |f.tickets| && forall w :: 0 <= w < |f.waiters| ==> WaiterOk(f, w)
    ensures forall w :: 0 <= w < |Released(f, t).waiters| ==> WaiterOk(Released(f, t), w)
  {
    forall w | 0 <= w < |Released(f, t).waiters| ensures WaiterOk(Released(f, t), w) { assert WaiterOk(f, w); }
  }

  /** Giving up a request that becomes inactive keeps everything in step. */
  lemma LeaveInv(s: State, r: nat, now: Request)
    requires Inv(s) && TicketsKnown(s) && r < |s.requests| && !Active(now)
    requires now.drive == s.requests[r].drive && now.media == s.requests[r].media && now.head == s.requests[r].head
             && now.ticket == s.requests[r].ticket
    ensures Inv(Leave(s, r, now))
  {
    var t, was := Leave(s, r, now), s.requests[r];
    assert SlotOk(s, r);
    ActiveAfter(s.requests, r, now, was.drive);
    forall d ensures Count(t.flight, d) == ActiveOn(t.requests, d) {
      ActiveAfter(s.requests, r, now, d);
      if was.ticket.Some? { ReleasedCounts(s.flight, was.ticket.value, d); }
    }
    forall q | 0 <= q < |t.requests| ensures SlotOk(t, q) {
      assert SlotOk(s, q);
      if q < r { assert s.requests[q].ticket.Some? ==> s.requests[q].ticket != was.ticket; }
      if q > r { assert was.ticket.Some? ==> was.ticket != s.requests[q].ticket; }
    }
    if was.ticket.Some? { ReleasedWaiters(s.flight, was.ticket.value); }
  }

  /** A step that gives nothing back and leaves the request as active as it was. */
  lemma StayInv(s: State, r: nat, now: Request)
    requires Inv(s) && r < |s.requests| && Active(now) == Active(s.requests[r])
    requires now.drive == s.requests[r].drive && now.media == s.requests[r].media && now.head == s.requests[r].head
             && now.ticket == s.requests[r].ticket
    ensures Inv(s.(requests := s.requests[r := now]))
  {
    var t := s.(requests := s.requests[r := now]);
    forall d ensures Count(t.flight, d) == ActiveOn(t.requests, d) { ActiveAfter(s.requests, r, now, d); }
    forall q | 0 <= q < |t.requests| ensures SlotOk(t, q) { assert SlotOk(s, q) && SlotOk(s, r); }
  }

  lemma BindInv(s: State, d: Drive, media: bool, head: bool)
    requires Inv(s)
    ensures Inv(Bound(s, d, media, head))
  {
    var t := Bound(s, d, media, head);
    var q := t.requests[|s.requests|];
    forall e ensures Count(t.flight, e) == ActiveOn(t.requests, e) { ActiveAppend(s.requests, q, e); }
    forall r | 0 <= r < |t.requests| ensures SlotOk(t, r) { if r < |s.requests| { assert SlotOk(s, r); } }
    forall r | 0 <= r < |s.requests| && s.requests[r].ticket.Some? ensures s.requests[r].ticket != q.ticket {
      assert SlotOk(s, r);
    }
    forall w | 0 <= w < |t.flight.waiters| ensures WaiterOk(t.flight, w) { assert WaiterOk(s.flight, w); }
  }

  lemma WaitInv(s: State, f: Flight)
    requires Inv(s) && f.counts == s.flight.counts && f.tickets == s.flight.tickets
    requires forall w :: 0 <= w < |f.waiters| ==> WaiterOk(f, w)
    ensures Inv(s.(flight := f))
  {
    var t := s.(flight := f);
    forall r | 0 <= r < |t.requests| ensures SlotOk(t, r) { assert SlotOk(s, r); }
    forall d ensures Count(t.flight, d) == ActiveOn(t.requests, d) {
      assert Count(s.flight, d) == ActiveOn(s.requests, d);
    }
  }

  lemma StepInv(s: State, ev: Event)
    requires Inv(s) && TicketsKnown(s) && Enabled(s, ev)
    ensures Inv(Step(s, ev)) && TicketsKnown(Step(s, ev))
  {
    match ev {
      case Bind(d, media, head) => BindInv(s, d, media, head);
      case Answered(r, _) => LeaveInv(s, r, s.requests[r].(stage := Over));
      case HeadAnswered(r) => StayInv(s, r, s.requests[r].(stage := Over));
      case Threw(r) => LeaveInv(s, r, s.requests[r].(stage := Over));
      case Piped(r) => StayInv(s, r, s.requests[r].(stage := Piping));
      case PumpDone(r) => LeaveInv(s, r, s.requests[r].(stage := Over));
      case Closed(r) => LeaveInv(s, r, Step(s, ev).requests[r]);
      case WhenDrained(d, timeout) =>
        var f := Awaited(s.flight, d, timeout);
        forall w | 0 <= w < |f.waiters|
          ensures WaiterOk(f, w)
        {
          if w < |s.flight.waiters| { assert WaiterOk(s.flight, w); }
        }
        WaitInv(s, f);
      case TimerFires(i) =>
        var f := Fired(s.flight, i);
        forall w | 0 <= w < |f.waiters| ensures WaiterOk(f, w) { assert WaiterOk(s.flight, w); }
        WaitInv(s, f);
    }
    InvKnowsTickets(Step(s, ev));
  }

  ghost predicate Valid(s: State, evs: seq<Event>)
    requires TicketsKnown(s) && Inv(s)
    decreases |evs|
  {
    evs == [] || (Enabled(s, evs[0]) && (StepInv(s, evs[0]); Valid(Step(s, evs[0]), evs[1..])))
  }

  ghost function Run(s: State, evs: seq<Event>): State
    requires TicketsKnown(s) && Inv(s) && Valid(s, evs)
    decreases |evs|
  {
    if evs == [] then s else StepInv(s, evs[0]); Run(Step(s, evs[0]), evs[1..])
  }

  // ---- main results ----------------------------------------------------------------------------

  lemma {:induction false} RunInv(s: State, evs: seq<Event>)
    requires TicketsKnown(s) && Inv(s) && Valid(s, evs)
    ensures Inv(Run(s, evs))
    decreases |evs|
  {
    if evs == [] {
    } else {
      StepInv(s, evs[0]);
      RunInv(Step(s, evs[0]), evs[1..]);
    }
  }

  predicate On(requests: seq<Request>, kind: Request -> bool, d: Drive, r: nat) {
    r < |requests| && kind(requests[r]) && requests[r].drive == d
  }

  /** None of a kind is tallied exactly when there is none. */
  lemma {:induction false} TallyIsZeroIff(kind: Request -> bool, requests: seq<Request>, d: Drive)
    ensures Tally(kind, requests, d) == 0 <==> forall r: nat :: !On(requests, kind, d, r)
  {
    if requests == [] {
    } else {
      var n := |requests| - 1;
      TallyIsZeroIff(kind, requests[..n], d);
      assert On(requests, kind, d, n) <==> One(kind, requests[n], d) == 1;
      forall r: nat | r != n ensures On(requests, kind, d, r) == On(requests[..n], kind, d, r) {}
    }
  }

  lemma {:induction false} TallySplits(requests: seq<Request>, d: Drive)
    ensures ActiveOn(requests, d) + Tally(HungUp, requests, d) == UnfinishedOn(requests, d)
  {
    if requests == [] {
    } else {
      TallySplits(requests[..|requests| - 1], d);
    }
  }

  /**
   After any run the count of a drive is the number of unfinished GET media requests bound to it, less those
   whose client has hung up; so it is that number exactly when no such client has.
   */
  lemma CountIsUnfinishedIff(evs: seq<Event>, d: Drive)
    requires Valid(INIT, evs)
    ensures
      var s := Run(INIT, evs);
      && Count(s.flight, d) + Tally(HungUp, s.requests, d) == UnfinishedOn(s.requests, d)
      && (Count(s.flight, d) == UnfinishedOn(s.requests, d) <==>
            forall r: nat :: On(s.requests, Unfinished, d, r) ==> !s.requests[r].closed)
  {
    var s := Run(INIT, evs);
    RunInv(INIT, evs);
    TallySplits(s.requests, d);
    TallyIsZeroIff(HungUp, s.requests, d);
    assert forall r: nat :: On(s.requests, HungUp, d, r) <==> On(s.requests, Unfinished, d, r) && s.requests[r].closed;
  }

  /** A drive counts as idle exactly when everyone it still serves has hung up. */
  lemma IdleDriveServesOnlyTheHungUp(evs: seq<Event>, d: Drive)
    requires Valid(INIT, evs)
    ensures
      var s := Run(INIT, evs);
      Count(s.flight, d) == 0 <==> forall r: nat :: On(s.requests, Unfinished, d, r) ==> s.requests[r].closed
  {
    var s := Run(INIT, evs);
    RunInv(INIT, evs);
    TallyIsZeroIff(Active, s.requests, d);
    assert forall r: nat :: On(s.requests, Active, d, r) <==> On(s.requests, Unfinished, d, r) && !s.requests[r].closed;
  }

  /** The count of a drive is exactly the number of its GET media requests still going, after any run. */
  lemma CountIsActiveRequests(evs: seq<Event>, d: Drive)
    requires Valid(INIT, evs)
    ensures Count(Run(INIT, evs).flight, d) == ActiveOn(Run(INIT, evs).requests, d)
  {
    RunInv(INIT, evs);
  }

  /** A waiter settled for any reason but its timer saw the drive idle at that moment. */
  lemma DrainedMeansIdle(s: State, ev: Event, w: nat)
    requires Inv(s) && TicketsKnown(s) && Enabled(s, ev) && w < |Step(s, ev).flight.waiters|
    requires w < |s.flight.waiters| ==> s.flight.waiters[w].settled.Pending?
    ensures
      var f := Step(s, ev).flight;
      && (f.waiters[w].settled.Drained? <==> Count(f, f.waiters[w].drive) == 0)
      && (f.waiters[w].settled.TimedOut? ==> ev == TimerFires(w))
  {
    StepInv(s, ev);
    assert WaiterOk(Step(s, ev).flight, w);
    if w < |s.flight.waiters| {
      assert WaiterOk(s.flight, w);
      match ev {
        case Answered(r, _) => SettledMeansIdle(s, r, w);
        case Threw(r) => SettledMeansIdle(s, r, w);
        case PumpDone(r) => SettledMeansIdle(s, r, w);
        case Closed(r) => SettledMeansIdle(s, r, w);
        case _ =>
      }
    }
  }

  lemma SettledMeansIdle(s: State, r: nat, w: nat)
    requires Inv(s) && TicketsKnown(s) && r < |s.requests| && w < |s.flight.waiters|
             && s.flight.waiters[w].settled.Pending?
    ensures
      var f := GiveBack(s.flight, s.requests[r].ticket);
      && !f.waiters[w].settled.TimedOut?
      && (f.waiters[w].settled.Drained? ==> Count(f, f.waiters[w].drive) == 0)
  {}

  /** Once settled, a waiter stays as it settled; until then its own timer settles it. */
  lemma WaitersSettleOnce(s: State, ev: Event, w: nat)
    requires Inv(s) && TicketsKnown(s) && Enabled(s, ev) && w < |s.flight.waiters|
    ensures
      var was, now := s.flight.waiters[w], Step(s, ev).flight.waiters;
      && w < |now| && now[w].drive == was.drive && now[w].ms == was.ms
      && (!was.settled.Pending? ==> now[w] == was)
      && (ev == TimerFires(w) ==> !now[w].settled.Pending?)
  {}

  /** The states a run passes through, from the first to the last. */
  ghost function Trace(s: State, evs: seq<Event>): (r: seq<State>)
    requires TicketsKnown(s) && Inv(s) && Valid(s, evs)
    ensures |r| == |evs| + 1 && r[0] == s && r[|evs|] == Run(s, evs)
    decreases |evs|
  {
    [s] + if evs == [] then [] else (StepInv(s, evs[0]); Trace(Step(s, evs[0]), evs[1..]))
  }

  ghost predicate Steps(s: State, ev: Event, t: State) {
    Inv(s) && TicketsKnown(s) && Enabled(s, ev) && t == Step(s, ev)
  }

  lemma {:induction false} TraceSteps(s: State, evs: seq<Event>, i: nat)
    requires TicketsKnown(s) && Inv(s) && Valid(s, evs) && i < |evs|
    ensures Steps(Trace(s, evs)[i], evs[i], Trace(s, evs)[i + 1])
    decreases |evs|
  {
    StepInv(s, evs[0]);
    if i == 0 {
    } else {
      TraceSteps(Step(s, evs[0]), evs[1..], i - 1);
    }
  }

  predicate HasSettled(s: State, w: nat) { w < |s.flight.waiters| && !s.flight.waiters[w].settled.Pending? }

  /**
   The waiter settles with the n-th event and not before, as drained exactly if its drive is idle then and
   otherwise by its own timer; and it is as it settled in every state from there to the last.
   */
  ghost predicate SettlesAt(trace: seq<State>, evs: seq<Event>, w: nat, n: nat, last: nat)
    requires 0 < n <= last <= |evs| < |trace|
  {
    && (forall k :: 0 <= k < n ==> !HasSettled(trace[k], w))
    && HasSettled(trace[n], w)
    && (var f := trace[n].flight;
        && (f.waiters[w].settled.Drained? <==> Count(f, f.waiters[w].drive) == 0)
        && (f.waiters[w].settled.TimedOut? ==> evs[n - 1] == TimerFires(w)))
    && forall k :: n <= k <= last ==>
      HasSettled(trace[k], w) && trace[k].flight.waiters[w] == trace[n].flight.waiters[w]
  }

  lemma {:induction false} SettledAtLast(evs: seq<Event>, w: nat, last: nat)
    requires Valid(INIT, evs) && last <= |evs| && HasSettled(Trace(INIT, evs)[last], w)
    ensures exists n :: 0 < n <= last && SettlesAt(Trace(INIT, evs), evs, w, n, last)
  {
    var trace := Trace(INIT, evs);
    if last == 0 {
    } else {
      TraceSteps(INIT, evs, last - 1);
      if HasSettled(trace[last - 1], w) {
        SettledAtLast(evs, w, last - 1);
        var n :| 0 < n <= last - 1 && SettlesAt(trace, evs, w, n, last - 1);
        WaitersSettleOnce(trace[last - 1], evs[last - 1], w);
        assert SettlesAt(trace, evs, w, n, last);
      } else {
        DrainedMeansIdle(trace[last - 1], evs[last - 1], w);
        forall k | 0 <= k < last ensures !HasSettled(trace[k], w) {
          if HasSettled(trace[k], w) { StaysSettled(evs, w, k, last - 1); }
        }
        assert SettlesAt(trace, evs, w, last, last);
      }
    }
  }

  lemma {:induction false} StaysSettled(evs: seq<Event>, w: nat, k: nat, n: nat)
    requires Valid(INIT, evs) && k <= n <= |evs| && HasSettled(Trace(INIT, evs)[k], w)
    ensures HasSettled(Trace(INIT, evs)[n], w)
  {
    if n == k {
    } else {
      StaysSettled(evs, w, k, n - 1);
      TraceSteps(INIT, evs, n - 1);
      WaitersSettleOnce(Trace(INIT, evs)[n - 1], evs[n - 1], w);
    }
  }

  /**
   Over any run a waiter settles at most once, for the reason it should, and keeps its outcome to the end; one that
   is still pending at the end waits on a busy drive.
   */
  lemma WaiterKeepsItsOutcome(evs: seq<Event>, w: nat)
    requires Valid(INIT, evs) && w < |Run(INIT, evs).flight.waiters|
    ensures
      var f := Run(INIT, evs).flight;
      if f.waiters[w].settled.Pending? then Count(f, f.waiters[w].drive) > 0
      else exists n :: 0 < n <= |evs| && SettlesAt(Trace(INIT, evs), evs, w, n, |evs|)
  {
    RunInv(INIT, evs);
    assert WaiterOk(Run(INIT, evs).flight, w);
    if !Run(INIT, evs).flight.waiters[w].settled.Pending? { SettledAtLast(evs, w, |evs|); }
  }

  // ---- requests and waiters by what happened alone -----------------------------------------------

  predicate Closes(evs: seq<Event>, n: nat, r: nat)
    requires n <= |evs|
  {
    exists k :: 0 <= k < n && evs[k] == Closed(r)
  }

  predicate Pipes(evs: seq<Event>, n: nat, r: nat)
    requires n <= |evs|
  {
    exists k :: 0 <= k < n && evs[k] == Piped(r)
  }

  /** Answered, thrown out of, pumped to its end, or hung up on while it was piped. */
  predicate EndsIt(evs: seq<Event>, k: nat, r: nat)
    requires k < |evs|
  {
    match evs[k]
    case Answered(q, _) => q == r
    case HeadAnswered(q) => q == r
    case Threw(q) => q == r
    case PumpDone(q) => q == r
    case Closed(q) => q == r && Pipes(evs, k, r)
    case _ => false
  }

  predicate Ends(evs: seq<Event>, n: nat, r: nat)
    requires n <= |evs|
  {
    exists k :: 0 <= k < n && EndsIt(evs, k, r)
  }

  predicate AsTold(evs: seq<Event>, n: nat, r: nat, q: Request)
    requires n <= |evs|
  {
    && (q.closed <==> Closes(evs, n, r))
    && (q.stage.Over? <==> Ends(evs, n, r))
    && (q.stage.Piping? <==> Pipes(evs, n, r) && !Ends(evs, n, r))
  }

  lemma ToldOneMore(evs: seq<Event>, n: nat, r: nat)
    requires n < |evs|
    ensures Closes(evs, n + 1, r) <==> Closes(evs, n, r) || evs[n] == Closed(r)
    ensures Pipes(evs, n + 1, r) <==> Pipes(evs, n, r) || evs[n] == Piped(r)
    ensures Ends(evs, n + 1, r) <==> Ends(evs, n, r) || EndsIt(evs, n, r)
  {
    if Closes(evs, n, r) { var k :| 0 <= k < n && evs[k] == Closed(r); assert evs[k] == Closed(r); }
    if Pipes(evs, n, r) { var k :| 0 <= k < n && evs[k] == Piped(r); assert evs[k] == Piped(r); }
    if Ends(evs, n, r) { var k :| 0 <= k < n && EndsIt(evs, k, r); assert EndsIt(evs, k, r); }
  }

  lemma NothingToldYet(evs: seq<Event>, n: nat, r: nat)
    requires Valid(INIT, evs) && n <= |evs| && r >= |Trace(INIT, evs)[n].requests|
    ensures !Closes(evs, n, r) && !Pipes(evs, n, r) && !Ends(evs, n, r)
  {
    forall k | 0 <= k < n ensures evs[k] != Closed(r) && evs[k] != Piped(r) && !EndsIt(evs, k, r) {
      RequestsGrow(evs, k, n);
      TraceSteps(INIT, evs, k);
    }
  }

  lemma {:induction false} RequestsGrow(evs: seq<Event>, k: nat, n: nat)
    requires Valid(INIT, evs) && k <= n <= |evs|
    ensures |Trace(INIT, evs)[k].requests| <= |Trace(INIT, evs)[n].requests|
  {
    if k == n {
    } else {
      RequestsGrow(evs, k, n - 1);
      TraceSteps(INIT, evs, n - 1);
    }
  }

  lemma StepTold(s: State, evs: seq<Event>, n: nat, r: nat)
    requires n < |evs| && Inv(s) && TicketsKnown(s) && Enabled(s, evs[n]) && r < |s.requests|
    requires AsTold(evs, n, r, s.requests[r])
    ensures
      var t := Step(s, evs[n]);
      r < |t.requests| && AsTold(evs, n + 1, r, t.requests[r]) && SameTarget(s.requests[r], t.requests[r])
  {
    ToldOneMore(evs, n, r);
  }

  predicate SameTarget(q: Request, r: Request) { r.drive == q.drive && r.media == q.media && r.head == q.head }

  /** Over any run a request is as its own events left it: closed, piped and over exactly when they say so. */
  lemma {:induction false} RequestsAreAsTold(evs: seq<Event>, n: nat, r: nat)
    requires Valid(INIT, evs) && n <= |evs| && r < |Trace(INIT, evs)[n].requests|
    ensures AsTold(evs, n, r, Trace(INIT, evs)[n].requests[r])
  {
    var trace := Trace(INIT, evs);
    if n == 0 {
    } else {
      TraceSteps(INIT, evs, n - 1);
      if r < |trace[n - 1].requests| {
        RequestsAreAsTold(evs, n - 1, r);
        StepTold(trace[n - 1], evs, n - 1, r);
      } else {
        NothingToldYet(evs, n - 1, r);
        ToldOneMore(evs, n - 1, r);
      }
    }
  }

  /** What an event asks for is kept as the request and the waiter with these numbers. */
  predicate Keeps(ev: Event, r: nat, w: nat, t: State) {
    && (ev.Bind? ==>
          && r < |t.requests| && t.requests[r].drive == ev.drive && t.requests[r].media == ev.media
          && t.requests[r].head == ev.head)
    && (ev.WhenDrained? ==>
          && w < |t.flight.waiters| && t.flight.waiters[w].drive == ev.drive
          && t.flight.waiters[w].ms == (if ev.timeout.NotFinite? || ev.timeout.ms < 0 then 0 else ev.timeout.ms))
  }

  lemma StepKeeps(s: State, ev: Event)
    requires TicketsKnown(s) && Enabled(s, ev)
    ensures
      var t := Step(s, ev);
      && Keeps(ev, |s.requests|, |s.flight.waiters|, t)
      && |t.requests| == |s.requests| + (if ev.Bind? then 1 else 0)
      && |t.flight.waiters| == |s.flight.waiters| + (if ev.WhenDrained? then 1 else 0)
  {}

  lemma StillKeeps(s: State, ev: Event, asked: Event, r: nat, w: nat)
    requires TicketsKnown(s) && Enabled(s, ev) && Keeps(asked, r, w, s)
    ensures Keeps(asked, r, w, Step(s, ev))
  {}

  lemma TraceKeeps(evs: seq<Event>, i: nat)
    requires Valid(INIT, evs) && i < |evs|
    ensures
      var s, t := Trace(INIT, evs)[i], Trace(INIT, evs)[i + 1];
      && TicketsKnown(s) && Enabled(s, evs[i]) && t == Step(s, evs[i])
      && Keeps(evs[i], |s.requests|, |s.flight.waiters|, t)
      && |t.requests| == |s.requests| + (if evs[i].Bind? then 1 else 0)
      && |t.flight.waiters| == |s.flight.waiters| + (if evs[i].WhenDrained? then 1 else 0)
  {
    TraceSteps(INIT, evs, i);
    StepKeeps(Trace(INIT, evs)[i], evs[i]);
  }

  /** Each request bound and each wait begun is one more, for the drive, the target and the time it was asked for. */
  lemma {:induction false} KeptAsAsked(evs: seq<Event>, k: nat, n: nat)
    requires Valid(INIT, evs) && k < n <= |evs|
    ensures
      var s, t := Trace(INIT, evs)[k], Trace(INIT, evs)[n];
      Keeps(evs[k], |s.requests|, |s.flight.waiters|, t)
    decreases n
  {
    var trace := Trace(INIT, evs);
    TraceKeeps(evs, n - 1);
    if n - 1 == k {
    } else {
      KeptAsAsked(evs, k, n - 1);
      StillKeeps(trace[n - 1], evs[n - 1], evs[k], |trace[k].requests|, |trace[k].flight.waiters|);
    }
  }

  function Binds(evs: seq<Event>, n: nat): nat
    requires n <= |evs|
  {
    if n == 0 then 0 else Binds(evs, n - 1) + (if evs[n - 1].Bind? then 1 else 0)
  }

  function Waits(evs: seq<Event>, n: nat): nat
    requires n <= |evs|
  {
    if n == 0 then 0 else Waits(evs, n - 1) + (if evs[n - 1].WhenDrained? then 1 else 0)
  }

  /** And there are no others. */
  lemma {:induction false} NoOthers(evs: seq<Event>, n: nat)
    requires Valid(INIT, evs) && n <= |evs|
    ensures |Trace(INIT, evs)[n].requests| == Binds(evs, n)
    ensures |Trace(INIT, evs)[n].flight.waiters| == Waits(evs, n)
  {
    if n == 0 {
    } else {
      NoOthers(evs, n - 1);
      TraceKeeps(evs, n - 1);
    }
  }

  /** A slot given back stays given back, and giving it back again changes nothing. */
  lemma SlotsReleaseOnce(f: Flight, t: nat, u: nat)
    requires t < |f.tickets| && u < |f.tickets|
    ensures Released(Released(f, t), t) == Released(f, t)
    ensures f.tickets[u].left ==> Released(f, t).tickets[u].left
  {}

  lemma {:induction false} RunKeepsRequest(s: State, evs: seq<Event>, r: nat)
    requires TicketsKnown(s) && Inv(s) && Valid(s, evs) && r < |s.requests|
             && (s.requests[r].closed || s.requests[r].stage.Over?)
    ensures r < |Run(s, evs).requests| && Run(s, evs).requests[r].ticket == s.requests[r].ticket
            && !Active(Run(s, evs).requests[r])
    decreases |evs|
  {
    if evs == [] {
    } else {
      StepInv(s, evs[0]);
      RunKeepsRequest(Step(s, evs[0]), evs[1..], r);
    }
  }

  /** However a request ends — answered, thrown out of, piped or hung up on — its slot is given back for good. */
  lemma EndedRequestsHoldNothing(s: State, evs: seq<Event>, r: nat)
    requires TicketsKnown(s) && Inv(s) && Valid(s, evs) && r < |s.requests| && s.requests[r].ticket.Some?
    requires s.requests[r].closed || s.requests[r].stage.Over?
    ensures
      var t := s.requests[r].ticket.value;
      t < |Run(s, evs).flight.tickets| && Run(s, evs).flight.tickets[t].left
  {
    RunKeepsRequest(s, evs, r);
    RunInv(s, evs);
    assert SlotOk(Run(s, evs), r);
  }

  /** There is such a reader: one that hung up while waiting for its entry goes on to be piped. */
  lemma HungUpReaderIsNotCounted(d: Drive)
    ensures
      var bound := Step(INIT, Bind(d, true, false));
      && Enabled(bound, Closed(0))
      && var hungUp := Step(bound, Closed(0));
      && Enabled(hungUp, Piped(0))
      && var piped := Step(hungUp, Piped(0));
      && piped.requests[0].stage.Piping? && piped.requests[0].drive == d && Count(piped.flight, d) == 0
  {
    StepInv(INIT, Bind(d, true, false));
  }

  // ---- the code --------------------------------------------------------------------------------

  predicate Parked(waiting: map<Drive, set<nat>>, d: Drive, w: nat) { d in waiting && w in waiting[d] }

  predicate PendingOn(waiters: seq<Waiter>, d: Drive, w: nat) {
    w < |waiters| && waiters[w].drive == d && waiters[w].settled.Pending?
  }

  class InFlight {
    var counts: map<Drive, nat>
    var tickets: seq<Ticket>
    var waiters: seq<Waiter>
    /** drive -> the waiters not settled yet. */
    var waiting: map<Drive, set<nat>>

    ghost function View(): Flight
      reads this
    {
      Flight(counts, tickets, waiters)
    }

    ghost predicate Valid()
      reads this
    {
      forall d, w: nat :: Parked(waiting, d, w) <==> PendingOn(waiters, d, w)
    }

    constructor ()
      ensures Valid() && View() == INIT.flight
    {
      counts, tickets, waiters, waiting := map[], [], [], map[];
    }

    /** Without a drive nothing is counted, and there is nothing to release. */
    method Enter(drive: Option<Drive>) returns (ticket: Option<nat>)
      requires Valid()
      modifies this
      ensures Valid()
      ensures drive.None? ==> View() == old(View()) && ticket.None?
      ensures drive.Some? ==> View() == Entered(old(View()), drive.value) && ticket == Some(|old(tickets)|)
    {
      if drive.None? { return None; }
      var d := drive.value;
      counts := counts[d := (if d in counts then counts[d] else 0) + 1];
      ticket := Some(|tickets|);
      tickets := tickets + [Ticket(d, false)];
    }

    /** The release function of one ticket. */
    method Release(t: nat)
      requires Valid() && t < |tickets|
      modifies this
      ensures Valid() && View() == Released(old(View()), t)
    {
      if tickets[t].left { return; }
      var d := tickets[t].drive;
      tickets := tickets[t := Ticket(d, true)];
      var held: int := if d in counts then counts[d] else 0;
      var n := held - 1;
      counts := counts[d := if n > 0 then n else 0];
      if n > 0 { return; }
      if d !in waiting {
        assert forall w: nat :: !PendingOn(waiters, d, w) by {
          assert forall w: nat :: Parked(waiting, d, w) <==> PendingOn(waiters, d, w);
        }
        assert forall w :: 0 <= w < |waiters| ==>
               (PendingOn(waiters, d, w) <==> waiters[w].drive == d && waiters[w].settled.Pending?);
        assert SettleAll(waiters, d) == waiters;
        return;
      }
      var resolving := waiting[d];
      waiting := waiting - {d};
      Resolve(d, resolving);
    }

    /** Settles every waiter of a set that was taken off its drive. */
    method Resolve(d: Drive, all: set<nat>)
      requires d !in waiting
      requires forall w: nat :: w in all <==> PendingOn(waiters, d, w)
      requires forall e, w: nat :: e != d ==> (Parked(waiting, e, w) <==> PendingOn(waiters, e, w))
      modifies this`waiters
      ensures Valid() && waiters == SettleAll(old(waiters), d)
    {
      var resolving := all;
      while resolving != {}
        invariant resolving <= all && |waiters| == |old(waiters)| && waiting == old(waiting)
        invariant forall w :: 0 <= w < |waiters| ==>
                    waiters[w] ==
                    if w in all && w !in resolving then old(waiters)[w].(settled := Drained) else old(waiters)[w]
        decreases |resolving|
      {
        var w :| w in resolving;
        waiters := waiters[w := waiters[w].(settled := Drained)];
        resolving := resolving - {w};
      }
      assert waiters == SettleAll(old(waiters), d);
      forall e, w: nat ensures Parked(waiting, e, w) <==> PendingOn(waiters, e, w) {
        assert w in all <==> PendingOn(old(waiters), d, w);
        assert e != d ==> (Parked(waiting, e, w) <==> PendingOn(old(waiters), e, w));
      }
    }

    /** What is returned is resolved at once when there is no drive, or an idle one. */
    method WhenDrained(drive: Option<Drive>, timeout: Timeout) returns (atOnce: bool)
      requires Valid()
      modifies this
      ensures Valid()
      ensures drive.None? ==> View() == old(View()) && atOnce
      ensures drive.Some? ==>
                && View() == Awaited(old(View()), drive.value, timeout)
                && (atOnce <==> Count(old(View()), drive.value) == 0)
    {
      if drive.None? { return true; }
      var d := drive.value;
      var ms := if timeout.Finite? && timeout.ms >= 0 then timeout.ms else 0;
      var w := |waiters|;
      atOnce := (if d in counts then counts[d] else 0) == 0;
      if atOnce {
        waiters := waiters + [Waiter(d, ms, Drained)];
      } else {
        waiters := waiters + [Waiter(d, ms, Pending)];
        waiting := waiting[d := (if d in waiting then waiting[d] else {}) + {w}];
      }
      forall e, v: nat ensures Parked(waiting, e, v) <==> PendingOn(waiters, e, v) {
        assert Parked(old(waiting), e, v) <==> PendingOn(old(waiters), e, v);
      }
    }

    method TimerFires(w: nat)
      requires Valid() && w < |waiters|
      modifies this
      ensures Valid() && View() == Fired(old(View()), w)
    {
      if !waiters[w].settled.Pending? { return; }
      var d := waiters[w].drive;
      waiters := waiters[w := waiters[w].(settled := TimedOut)];
      if d in waiting {
        var left := waiting[d] - {w};
        assert Parked(waiting, d, w);
        waiting := if left == {} then waiting - {d} else waiting[d := left];
        forall e, v: nat ensures Parked(waiting, e, v) <==> PendingOn(waiters, e, v) {
          assert Parked(old(waiting), e, v) <==> PendingOn(old(waiters), e, v);
          assert e == d ==> (Parked(waiting, e, v) <==> v in left);
        }
      }
    }
  }

  class DriveHandler {
    const inflight: InFlight
    var requests: seq<Request>

    ghost function View(): State
      reads this, inflight
    {
      State(inflight.View(), requests)
    }

    ghost predicate Good()
      reads this, inflight
    {
      inflight.Valid() && TicketsKnown(View())
    }

    constructor ()
      ensures Good() && View() == INIT && fresh(inflight)
    {
      inflight := new InFlight();
      requests := [];
    }

    /** The target is bound: from here to the request's end the slot is held. */
    method BindTarget(d: Drive, media: bool, head: bool)
      requires Good()
      modifies this, inflight
      ensures Good() && View() == Step(old(View()), Bind(d, media, head))
    {
      if !media || head {
        requests := requests + [Request(d, media, head, None, Waiting, false)];
        return;
      }
      var ticket := inflight.Enter(Some(d));
      requests := requests + [Request(d, media, head, ticket, Waiting, false)];
    }

    method ReleaseSlot(r: nat)
      requires Good() && r < |requests|
      modifies inflight
      ensures Good() && View() == old(View()).(flight := GiveBack(old(View()).flight, requests[r].ticket))
    {
      if requests[r].ticket.Some? { inflight.Release(requests[r].ticket.value); }
    }

    /** The early answers: 304, 404 and 416. */
    method AnswerEarly(r: nat, answer: Answer) returns (status: int)
      requires Good() && Enabled(View(), Answered(r, answer))
      modifies this, inflight
      ensures Good() && View() == Step(old(View()), Answered(r, answer)) && status in {304, 404, 416}
    {
      ReleaseSlot(r);
      requests := requests[r := requests[r].(stage := Over)];
      status := match answer case NotModified => 304 case NotFound => 404 case RangeNotSatisfiable => 416;
    }

    method AnswerHead(r: nat)
      requires Good() && Enabled(View(), HeadAnswered(r))
      modifies this
      ensures Good() && View() == Step(old(View()), HeadAnswered(r))
    {
      requests := requests[r := requests[r].(stage := Over)];
    }

    /** The outer catch. */
    method Catch(r: nat)
      requires Good() && Enabled(View(), Threw(r))
      modifies this, inflight
      ensures Good() && View() == Step(old(View()), Threw(r))
    {
      ReleaseSlot(r);
      requests := requests[r := requests[r].(stage := Over)];
    }

    method Pipe(r: nat)
      requires Good() && Enabled(View(), Piped(r))
      modifies this
      ensures Good() && View() == Step(old(View()), Piped(r))
    {
      requests := requests[r := requests[r].(stage := Piping)];
    }

    /** The pump's onDone. */
    method Done(r: nat)
      requires Good() && Enabled(View(), PumpDone(r))
      modifies this, inflight
      ensures Good() && View() == Step(old(View()), PumpDone(r))
    {
      ReleaseSlot(r);
      requests := requests[r := requests[r].(stage := Over)];
    }

    /** The response closed: its own listener releases, and so does the pump's when it is piping. */
    method Close(r: nat)
      requires Good() && Enabled(View(), Closed(r))
      modifies this, inflight
      ensures Good() && View() == Step(old(View()), Closed(r))
    {
      ReleaseSlot(r);
      requests := requests[r := requests[r].(closed := true)];
      if requests[r].stage.Piping? {
        ReleaseSlot(r);
        requests := requests[r := requests[r].(stage := Over)];
      }
    }
  }
}
