/**
 The television's side of remote control (sdk/remote-control.js): one status, pushed to every verified
 controller when it changes and no more than once a second, and the two topics it is announced on.

 A peer's entry receives what is sent to it while it is listed; the deferred send to a new arrival holds the
 entry and finds it gone if its channel closed first. Clock readings do not go backwards, and a timer fires
 no earlier than it was set for.
 */
module RemoteStatus {
  import opened Arithmetic
  import opened Wrappers

  const STATUS_MIN_MS := 1000

  datatype Playback = Playing | Paused | Stopped

  datatype Status = Status(streamId: Option<string>, state: Playback, position: Option<int>)

  const STOPPED := Status(None, Stopped, None)

  /** What publishStatus is handed: each part absent, unusable, or given. A null channel is a given one. */
  datatype Part<T> = Absent | Unusable | Given(value: T)

  datatype Next = Next(streamId: Part<Option<string>>, state: Part<Playback>, position: Part<real>)

  /** What a channel name is cut down to; None when nothing usable is left of it. */
  type Labeller = string -> Option<string>

  type Peer = nat

  datatype Entry = Entry(verified: bool, last: Option<Status>)

  /** arrivals: deferred sends not run yet. flushes: when each broadcast went out. */
  datatype State = State(status: Status, sentAt: int, timer: Option<int>, peers: map<Peer, Entry>,
                         arrivals: set<Peer>, flushes: seq<int>, destroyed: bool, now: int)

  datatype Event =
    | Publish(next: Next, at: int)
    | TimerFires(at: int)
    | Attached(p: Peer)
    | Whoami(p: Peer)
    | Greeted(p: Peer)
    | ArrivalRuns(p: Peer)
    | Dropped(p: Peer)
    | Destroy

  // ---- the steps -------------------------------------------------------------------------------

  function Round(x: real): int { (x + 0.5).Floor }

  /** A playhead belongs to the channel it was measured on: a new channel drops the old one. */
  function Updated(s: Status, next: Next, cut: Labeller): Status {
    var streamId :=
      match next.streamId
      case Absent => s.streamId
      case Unusable => None
      case Given(id) => if id.None? then None else cut(id.value);
    var state := if next.state.Given? then next.state.value else s.state;
    var position :=
      match next.position
      case Absent => if streamId != s.streamId then None else s.position
      case Unusable => None
      case Given(x) => if x >= 0.0 then Some(Round(x)) else None;
    Status(streamId, state, position)
  }

  predicate Changed(s: Status, t: Status) { s.streamId != t.streamId || s.state != t.state }

  function SentTo(s: State, p: Peer): State {
    if p in s.peers && s.peers[p].verified then s.(peers := s.peers[p := s.peers[p].(last := Some(s.status))]) else s
  }

  function SentToAll(peers: map<Peer, Entry>, status: Status): map<Peer, Entry> {
    map p | p in peers :: if peers[p].verified then peers[p].(last := Some(status)) else peers[p]
  }

  function Flushed(s: State): State {
    s.(sentAt := s.now, timer := None, peers := SentToAll(s.peers, s.status), flushes := s.flushes + [s.now])
  }

  function Published(s: State, next: Next, cut: Labeller): State {
    var t := s.(status := Updated(s.status, next, cut));
    if s.destroyed then s
    else if !Changed(s.status, t.status) then t
    else if s.now - s.sentAt >= STATUS_MIN_MS then Flushed(t)
    else if s.timer.Some? then t
    else t.(timer := Some(s.now + STATUS_MIN_MS - (s.now - s.sentAt)))
  }

  predicate Enabled(s: State, ev: Event) {
    match ev
    case Publish(_, at) => at >= s.now
    case TimerFires(at) => at >= s.now && s.timer.Some? && at >= s.timer.value
    case Attached(p) => !s.destroyed && p !in s.peers && p !in s.arrivals
    case Whoami(p) => p in s.peers
    case Greeted(p) => p in s.peers
    case ArrivalRuns(p) => p in s.arrivals
    case Dropped(p) => p in s.peers
    case Destroy => true
  }

  function Step(s: State, ev: Event, cut: Labeller): State
    requires Enabled(s, ev)
  {
    match ev
    case Publish(next, at) => Published(s.(now := at), next, cut)
    case TimerFires(at) => Flushed(s.(now := at))
    case Attached(p) => s.(peers := s.peers[p := Entry(false, None)])
    case Whoami(p) =>
      if s.peers[p].verified then s
      else s.(peers := s.peers[p := s.peers[p].(verified := true)], arrivals := s.arrivals + {p})
    case Greeted(p) =>
      if s.peers[p].verified then s else SentTo(s.(peers := s.peers[p := s.peers[p].(verified := true)]), p)
    case ArrivalRuns(p) => SentTo(s.(arrivals := s.arrivals - {p}), p)
    case Dropped(p) => s.(peers := s.peers - {p})
    case Destroy => if s.destroyed then s else s.(destroyed := true, timer := None, peers := map[])
  }

  predicate Valid(s: State, evs: seq<Event>, cut: Labeller)
    decreases |evs|
  {
    evs == [] || (Enabled(s, evs[0]) && Valid(Step(s, evs[0], cut), evs[1..], cut))
  }

  function Run(s: State, evs: seq<Event>, cut: Labeller): State
    requires Valid(s, evs, cut)
    decreases |evs|
  {
    if evs == [] then s else Run(Step(s, evs[0], cut), evs[1..], cut)
  }

  function Start(now: int): State { State(STOPPED, 0, None, map[], {}, [], false, now) }

  // ---- invariants ------------------------------------------------------------------------------

  predicate UpToDate(s: State, p: Peer)
    requires p in s.peers
  {
    s.peers[p].last.Some? && !Changed(s.peers[p].last.value, s.status)
  }

  predicate Apart(flushes: seq<int>) {
    forall j, k :: 0 <= j < k < |flushes| ==> flushes[j] + STATUS_MIN_MS <= flushes[k]
  }

  predicate Inv(s: State) {
    && (s.timer.None? ==> forall p :: p in s.peers && s.peers[p].verified && p !in s.arrivals ==> UpToDate(s, p))
    && (forall p :: p in s.peers && !s.peers[p].verified ==> s.peers[p].last.None?)
    && (s.timer.Some? ==> s.timer.value == s.sentAt + STATUS_MIN_MS)
    && (s.destroyed ==> s.timer.None? && s.peers == map[])
    && Apart(s.flushes)
    && (forall k :: 0 <= k < |s.flushes| ==> s.flushes[k] <= s.sentAt)
  }

  lemma FlushedInv(s: State)
    requires Inv(s) && s.now - s.sentAt >= STATUS_MIN_MS
    ensures Inv(Flushed(s))
  {}

  lemma StepInv(s: State, ev: Event, cut: Labeller)
    requires Inv(s) && Enabled(s, ev)
    ensures Inv(Step(s, ev, cut))
  {
    match ev
    case TimerFires(at) => FlushedInv(s.(now := at));
    case Publish(next, at) =>
      var t := s.(now := at, status := Updated(s.status, next, cut));
      if !s.destroyed && Changed(s.status, t.status) && at - s.sentAt >= STATUS_MIN_MS { ChangedFlushInv(t); }
    case _ =>
  }

  lemma ChangedFlushInv(s: State)
    requires forall p :: p in s.peers && !s.peers[p].verified ==> s.peers[p].last.None?
    requires !s.destroyed && Apart(s.flushes) && s.now - s.sentAt >= STATUS_MIN_MS
    requires forall k :: 0 <= k < |s.flushes| ==> s.flushes[k] <= s.sentAt
    ensures Inv(Flushed(s))
  {}

  lemma {:induction false} RunInv(s: State, evs: seq<Event>, cut: Labeller)
    requires Inv(s) && Valid(s, evs, cut)
    ensures Inv(Run(s, evs, cut))
    decreases |evs|
  {
    if evs == [] {
    } else {
      StepInv(s, evs[0], cut);
      RunInv(Step(s, evs[0], cut), evs[1..], cut);
    }
  }

  // ---- main results ----------------------------------------------------------------------------

  /** Once no trailing or arrival send is due, every verified peer has been told the current channel and state. */
  lemma EveryoneConverges(start: int, evs: seq<Event>, cut: Labeller, p: Peer)
    requires Valid(Start(start), evs, cut)
    requires
      var s := Run(Start(start), evs, cut);
      s.timer.None? && p in s.peers && s.peers[p].verified && p !in s.arrivals
    ensures
      var s := Run(Start(start), evs, cut);
      s.peers[p].last.Some? && s.peers[p].last.value.streamId == s.status.streamId
        && s.peers[p].last.value.state == s.status.state
  {
    RunInv(Start(start), evs, cut);
  }

  /** A peer that has not proved itself and named itself is never told what is on. */
  lemma OnlyVerifiedPeersHear(start: int, evs: seq<Event>, cut: Labeller, p: Peer)
    requires Valid(Start(start), evs, cut) && p in Run(Start(start), evs, cut).peers
    ensures Run(Start(start), evs, cut).peers[p].last.Some? ==> Run(Start(start), evs, cut).peers[p].verified
  {
    RunInv(Start(start), evs, cut);
  }

  /** Broadcasts are at least a second apart, and a change not sent at once is sent within a second of the last one. */
  lemma BroadcastsAreApart(start: int, evs: seq<Event>, cut: Labeller)
    requires Valid(Start(start), evs, cut)
    ensures
      var s := Run(Start(start), evs, cut);
      Apart(s.flushes) && (s.timer.Some? ==> s.timer.value == s.sentAt + STATUS_MIN_MS)
  {
    RunInv(Start(start), evs, cut);
  }

  /**
   A change of channel or state is never simply dropped, until the session is: it goes out now, or a send for
   it is due.
   */
  lemma ChangesAreSent(s: State, next: Next, at: int, cut: Labeller)
    requires Inv(s) && at >= s.now && Changed(s.status, Updated(s.status, next, cut))
    ensures
      var t := Step(s, Publish(next, at), cut);
      if s.destroyed then t == s.(now := at)
      else
        || t.timer.Some?
        || (t.sentAt == at && forall p :: p in t.peers && t.peers[p].verified ==> t.peers[p].last == Some(t.status))
  {}

  /** After destroy nothing is sent any more, and nobody is left. */
  lemma {:induction false} DestroyedIsSilent(s: State, evs: seq<Event>, cut: Labeller)
    requires Inv(s) && s.destroyed && Valid(s, evs, cut)
    ensures var t := Run(s, evs, cut); t.destroyed && t.flushes == s.flushes && t.peers == map[] && t.timer.None?
    decreases |evs|
  {
    if evs == [] {
    } else {
      StepInv(s, evs[0], cut);
      DestroyedIsSilent(Step(s, evs[0], cut), evs[1..], cut);
    }
  }

  /** The states a run passes through, from the first to the last. */
  function Trace(s: State, evs: seq<Event>, cut: Labeller): (r: seq<State>)
    requires Valid(s, evs, cut)
    ensures |r| == |evs| + 1 && r[0] == s && r[|evs|] == Run(s, evs, cut)
    decreases |evs|
  {
    [s] + if evs == [] then [] else Trace(Step(s, evs[0], cut), evs[1..], cut)
  }

  lemma {:induction false} TraceSteps(s: State, evs: seq<Event>, cut: Labeller, i: nat)
    requires Valid(s, evs, cut) && i < |evs|
    ensures
      var trace := Trace(s, evs, cut);
      Enabled(trace[i], evs[i]) && trace[i + 1] == Step(trace[i], evs[i], cut)
    decreases |evs|
  {
    if i == 0 {
    } else {
      TraceSteps(Step(s, evs[0], cut), evs[1..], cut, i - 1);
    }
  }

  predicate Supplies(ev: Event, position: int) {
    ev.Publish? && ev.next.position.Given? && ev.next.position.value >= 0.0 && Round(ev.next.position.value) == position
  }

  /** Event j gave this position, and the channel has been the same from that call until the m-th state. */
  predicate Supplied(trace: seq<State>, evs: seq<Event>, j: nat, m: nat, position: int)
    requires j < m <= |evs| < |trace|
  {
    Supplies(evs[j], position) && forall k :: j < k <= m ==> trace[k].status.streamId == trace[m].status.streamId
  }

  /** A position was supplied with or after the last change of channel, never carried over from another. */
  lemma {:induction false} PositionIsOfThisChannel(start: int, evs: seq<Event>, cut: Labeller, m: nat)
    requires Valid(Start(start), evs, cut) && m <= |evs| && Trace(Start(start), evs, cut)[m].status.position.Some?
    ensures
      var trace := Trace(Start(start), evs, cut);
      exists j :: 0 <= j < m && Supplied(trace, evs, j, m, trace[m].status.position.value)
  {
    var trace := Trace(Start(start), evs, cut);
    if m == 0 {
    } else {
      TraceSteps(Start(start), evs, cut, m - 1);
      var p := trace[m].status.position.value;
      if Supplies(evs[m - 1], p) && trace[m].status != trace[m - 1].status {
        assert Supplied(trace, evs, m - 1, m, p);
      } else {
        assert trace[m].status.streamId == trace[m - 1].status.streamId && trace[m - 1].status.position == Some(p);
        PositionIsOfThisChannel(start, evs, cut, m - 1);
        var j :| 0 <= j < m - 1 && Supplied(trace, evs, j, m - 1, p);
        assert Supplied(trace, evs, j, m, p);
      }
    }
  }

  /** What a peer was last sent was the status at some moment of the run. */
  lemma {:induction false} SentWasTheStatus(start: int, evs: seq<Event>, cut: Labeller, n: nat, p: Peer)
    requires Valid(Start(start), evs, cut) && n <= |evs|
    requires
      var s := Trace(Start(start), evs, cut)[n];
      p in s.peers && s.peers[p].last.Some?
    ensures
      var trace := Trace(Start(start), evs, cut);
      exists m :: 0 <= m <= n && trace[m].status == trace[n].peers[p].last.value
  {
    var trace := Trace(Start(start), evs, cut);
    if n == 0 {
    } else {
      TraceSteps(Start(start), evs, cut, n - 1);
      if trace[n].peers[p].last.value == trace[n].status {
      } else {
        assert p in trace[n - 1].peers && trace[n - 1].peers[p].last == trace[n].peers[p].last;
        SentWasTheStatus(start, evs, cut, n - 1, p);
      }
    }
  }

  /** Over any run, a position in the last status a peer was sent was measured on the channel sent with it. */
  lemma PositionSentIsOfThisChannel(start: int, evs: seq<Event>, cut: Labeller, p: Peer)
    requires Valid(Start(start), evs, cut) && p in Run(Start(start), evs, cut).peers
    requires
      var last := Run(Start(start), evs, cut).peers[p].last;
      last.Some? && last.value.position.Some?
    ensures
      var trace, last := Trace(Start(start), evs, cut), Run(Start(start), evs, cut).peers[p].last.value;
      exists j, m :: 0 <= j < m <= |evs| && trace[m].status == last && Supplied(trace, evs, j, m, last.position.value)
  {
    var trace, last := Trace(Start(start), evs, cut), Run(Start(start), evs, cut).peers[p].last.value;
    SentWasTheStatus(start, evs, cut, |evs|, p);
    var m :| 0 <= m <= |evs| && trace[m].status == last;
    PositionIsOfThisChannel(start, evs, cut, m);
  }

  // ---- by what happened alone ------------------------------------------------------------------

  predicate Over(evs: seq<Event>, n: nat)
    requires n <= |evs|
  {
    exists k :: 0 <= k < n && evs[k].Destroy?
  }

  /** Of the first n events, j attached the peer and none since dropped it or ended the session. */
  predicate Since(evs: seq<Event>, j: nat, n: nat, p: Peer)
    requires n <= |evs|
  {
    j < n && evs[j] == Attached(p) && forall k :: j < k < n ==> evs[k] != Dropped(p) && evs[k] != Destroy
  }

  predicate Listed(evs: seq<Event>, n: nat, p: Peer)
    requires n <= |evs|
  {
    exists j :: 0 <= j < n && Since(evs, j, n, p)
  }

  /** And it has named itself since, or answered with a name. */
  predicate NamedSince(evs: seq<Event>, j: nat, k: nat, n: nat, p: Peer)
    requires n <= |evs|
  {
    j < k < n && Since(evs, j, n, p) && (evs[k] == Whoami(p) || evs[k] == Greeted(p))
  }

  predicate Named(evs: seq<Event>, n: nat, p: Peer)
    requires n <= |evs|
  {
    exists j, k :: 0 <= j < k < n && NamedSince(evs, j, k, n, p)
  }

  lemma ListedOn(evs: seq<Event>, n: nat, p: Peer)
    requires n < |evs|
    ensures Listed(evs, n + 1, p) <==>
      evs[n] == Attached(p) || (Listed(evs, n, p) && evs[n] != Dropped(p) && evs[n] != Destroy)
  {
    if Listed(evs, n + 1, p) && evs[n] != Attached(p) {
      var j :| 0 <= j < n + 1 && Since(evs, j, n + 1, p);
      assert Since(evs, j, n, p);
    }
    if Listed(evs, n, p) && evs[n] != Dropped(p) && evs[n] != Destroy {
      var j :| 0 <= j < n && Since(evs, j, n, p);
      assert Since(evs, j, n + 1, p);
    }
    if evs[n] == Attached(p) { assert Since(evs, n, n + 1, p); }
  }

  lemma NamedOn(evs: seq<Event>, n: nat, p: Peer)
    requires n < |evs|
    ensures Named(evs, n + 1, p) <==>
      || (Named(evs, n, p) && evs[n] != Dropped(p) && evs[n] != Destroy)
      || (Listed(evs, n, p) && (evs[n] == Whoami(p) || evs[n] == Greeted(p)))
  {
    if Named(evs, n + 1, p) {
      var j, k :| 0 <= j < k < n + 1 && NamedSince(evs, j, k, n + 1, p);
      assert Since(evs, j, n, p);
      if k < n { assert NamedSince(evs, j, k, n, p); }
    }
    if Named(evs, n, p) && evs[n] != Dropped(p) && evs[n] != Destroy {
      var j, k :| 0 <= j < k < n && NamedSince(evs, j, k, n, p);
      assert NamedSince(evs, j, k, n + 1, p);
    }
    if Listed(evs, n, p) && (evs[n] == Whoami(p) || evs[n] == Greeted(p)) {
      var j :| 0 <= j < n && Since(evs, j, n, p);
      assert NamedSince(evs, j, n, n + 1, p);
    }
  }

  lemma {:induction false} TraceInv(start: int, evs: seq<Event>, cut: Labeller, n: nat)
    requires Valid(Start(start), evs, cut) && n <= |evs|
    ensures Inv(Trace(Start(start), evs, cut)[n])
  {
    if n == 0 {
    } else {
      TraceInv(start, evs, cut, n - 1);
      TraceSteps(Start(start), evs, cut, n - 1);
      StepInv(Trace(Start(start), evs, cut)[n - 1], evs[n - 1], cut);
    }
  }

  lemma StepPeers(s: State, ev: Event, cut: Labeller, p: Peer)
    requires Inv(s) && Enabled(s, ev)
    ensures
      var t := Step(s, ev, cut);
      && (t.destroyed <==> s.destroyed || ev.Destroy?)
      && (p in t.peers <==> ev == Attached(p) || (p in s.peers && ev != Dropped(p) && ev != Destroy))
      && (p in t.peers && t.peers[p].verified <==>
            && p in s.peers && ev != Dropped(p) && ev != Destroy && ev != Attached(p)
            && (s.peers[p].verified || ev == Whoami(p) || ev == Greeted(p)))
  {}

  /** Over any run: who is listed, who is verified, and whether the session is over, read off the events. */
  lemma {:induction false} PeersAreAsTold(start: int, evs: seq<Event>, cut: Labeller, n: nat, p: Peer)
    requires Valid(Start(start), evs, cut) && n <= |evs|
    ensures
      var s := Trace(Start(start), evs, cut)[n];
      && (s.destroyed <==> Over(evs, n))
      && (p in s.peers <==> Listed(evs, n, p))
      && (p in s.peers && s.peers[p].verified <==> Named(evs, n, p))
  {
    if n == 0 {
    } else {
      var before := Trace(Start(start), evs, cut)[n - 1];
      PeersAreAsTold(start, evs, cut, n - 1, p);
      TraceSteps(Start(start), evs, cut, n - 1);
      TraceInv(start, evs, cut, n - 1);
      StepPeers(before, evs[n - 1], cut, p);
      ListedOn(evs, n - 1, p);
      NamedOn(evs, n - 1, p);
      assert Over(evs, n) <==> Over(evs, n - 1) || evs[n - 1].Destroy?;
    }
  }

  /** What the n-th event asks the state to be: None when it says nothing of it. */
  function Tells(ev: Event): Option<Playback> {
    if ev.Publish? && ev.next.state.Given? then Some(ev.next.state.value) else None
  }

  /** And the channel: cut to what is usable of it. */
  function TellsChannel(ev: Event, cut: Labeller): Option<Option<string>> {
    if !ev.Publish? || ev.next.streamId.Absent? then None
    else if ev.next.streamId.Given? && ev.next.streamId.value.Some? then Some(cut(ev.next.streamId.value.value))
    else Some(None)
  }

  lemma StepStatus(s: State, ev: Event, cut: Labeller)
    requires Inv(s) && Enabled(s, ev) && !s.destroyed
    ensures
      var t := Step(s, ev, cut);
      && t.status.state == (if Tells(ev).Some? then Tells(ev).value else s.status.state)
      && t.status.streamId == (if TellsChannel(ev, cut).Some? then TellsChannel(ev, cut).value else s.status.streamId)
  {}

  /**
   The last of the first n events to say anything, if one did, said this; otherwise it is what it was at the
   start.
   */
  predicate LastTold<T(==)>(told: seq<Option<T>>, n: nat, now: T, atFirst: T)
    requires n <= |told|
  {
    if n == 0 then now == atFirst else if told[n - 1].Some? then now == told[n - 1].value
      else LastTold(told, n - 1, now, atFirst)
  }

  /**
   Over any run the state and the channel are the ones last given while the session lasted, and stopped and none
   before any was.
   */
  lemma {:induction false} StatusIsTheLastGiven(start: int, evs: seq<Event>, cut: Labeller, n: nat)
    requires Valid(Start(start), evs, cut) && n <= |evs| && !Over(evs, n)
    ensures
      var status := Trace(Start(start), evs, cut)[n].status;
      && LastTold(seq(|evs|, i requires 0 <= i < |evs| => Tells(evs[i])), n, status.state, Stopped)
      && LastTold(seq(|evs|, i requires 0 <= i < |evs| => TellsChannel(evs[i], cut)), n, status.streamId, None)
  {
    if n == 0 {
    } else {
      StatusIsTheLastGiven(start, evs, cut, n - 1);
      TraceSteps(Start(start), evs, cut, n - 1);
      TraceInv(start, evs, cut, n - 1);
      PeersAreAsTold(start, evs, cut, n - 1, 0);
      StepStatus(Trace(Start(start), evs, cut)[n - 1], evs[n - 1], cut);
    }
  }

  /** A position given is taken to the nearest whole one; one that is unusable leaves none. */
  lemma GivenPositionIsTaken(s: State, next: Next, at: int, cut: Labeller)
    requires Enabled(s, Publish(next, at)) && !s.destroyed && !next.position.Absent?
    ensures
      var position := Step(s, Publish(next, at), cut).status.position;
      if next.position.Given? && next.position.value >= 0.0
      then position.Some? && -0.5 < position.value as real - next.position.value <= 0.5
      else position.None?
  {}

  /** Nor does a position go when its channel stays and none is given. */
  lemma PositionStays(s: State, next: Next, at: int, cut: Labeller)
    requires Enabled(s, Publish(next, at)) && next.position.Absent?
    ensures
      var t := Step(s, Publish(next, at), cut);
      t.status.streamId == s.status.streamId ==> t.status.position == s.status.position
  {}

  /**
   What a call sends, in its own terms. A change goes to every verified peer at once when the last broadcast is a
   second old, and is due a second after it otherwise; anything else sends nothing; and all that is sent
   by a call or the timer is in the log of broadcasts, with its time.
   */
  lemma PublishSends(s: State, next: Next, at: int, cut: Labeller, p: Peer)
    requires Inv(s) && Enabled(s, Publish(next, at)) && !s.destroyed && p in s.peers
    ensures
      var t := Step(s, Publish(next, at), cut);
      var changed := t.status.streamId != s.status.streamId || t.status.state != s.status.state;
      if changed && at >= s.sentAt + 1000 then
        && p in t.peers && (s.peers[p].verified ==> t.peers[p].last == Some(t.status))
        && t.timer.None? && t.sentAt == at && t.flushes == s.flushes + [at]
      else
        && t.peers == s.peers && t.flushes == s.flushes && t.sentAt == s.sentAt
        && t.timer == (if changed then Some(s.sentAt + 1000) else s.timer)
  {}

  /** The timer sends the status as it then is, to everyone verified. */
  lemma TimerSends(s: State, at: int, cut: Labeller, p: Peer)
    requires Enabled(s, TimerFires(at)) && p in s.peers
    ensures
      var t := Step(s, TimerFires(at), cut);
      && p in t.peers && t.status == s.status && (s.peers[p].verified ==> t.peers[p].last == Some(s.status))
      && t.timer.None? && t.sentAt == at && t.flushes == s.flushes + [at]
  {}

  /** A new arrival hears the status: from its whoami a tick later, from our own greeting at once, and only once. */
  lemma ArrivalHears(s: State, p: Peer, cut: Labeller)
    requires p in s.peers
    ensures
      !s.peers[p].verified ==>
        && p in Step(s, Whoami(p), cut).arrivals
        && Step(s, Greeted(p), cut).peers[p].last == Some(s.status) && Step(s, Greeted(p), cut).arrivals == s.arrivals
    ensures s.peers[p].verified ==> Step(s, Whoami(p), cut) == s && Step(s, Greeted(p), cut) == s
    ensures
      p in s.arrivals ==>
        var t := Step(s, ArrivalRuns(p), cut);
        p !in t.arrivals && p in t.peers && (s.peers[p].verified ==> t.peers[p].last == Some(s.status))
  {}

  // ---- topics ----------------------------------------------------------------------------------

  function Epoch(t: int, epochMs: nat): nat
    requires epochMs > 0
  {
    if t < 0 then 0 else t / epochMs
  }

  /** This period's topic and the last one's. */
  function LiveEpochs(t: int, epochMs: nat): set<nat>
    requires epochMs > 0
  {
    var e := Epoch(t, epochMs); if e > 0 then {e, e - 1} else {0}
  }

  /** Two devices share a topic exactly when their clocks are in the same period or neighbouring ones. */
  lemma TopicsMeet(t: int, u: int, epochMs: nat)
    requires epochMs > 0
    ensures
      LiveEpochs(t, epochMs) * LiveEpochs(u, epochMs) != {} <==>
        Epoch(t, epochMs) <= Epoch(u, epochMs) + 1 && Epoch(u, epochMs) <= Epoch(t, epochMs) + 1
  {
    var d, e := Epoch(t, epochMs), Epoch(u, epochMs);
    if d <= e + 1 && e <= d + 1 {
      assert (if d < e then d else e) in LiveEpochs(t, epochMs) * LiveEpochs(u, epochMs);
    } else {
      assert forall x :: x in LiveEpochs(t, epochMs) ==> x !in LiveEpochs(u, epochMs);
    }
  }

  /** The period a clock reads: from its start until the next one's, and the first before the epoch. */
  lemma EpochIsThePeriod(t: int, epochMs: nat)
    requires epochMs > 0
    ensures
      var e := Epoch(t, epochMs);
      if t < 0 then e == 0 else Mul(epochMs, e) <= t < Mul(epochMs, e + 1)
  {
    if t >= 0 {
      Splits(t, epochMs);
      MulAdds(epochMs, t / epochMs, 1);
      assert Mul(epochMs, 1) == epochMs;
    }
  }

  /** Clocks two whole periods apart share no topic: an old topic is left. */
  lemma OldTopicsAreLeft(t: int, u: int, epochMs: nat)
    requires epochMs > 0 && t >= 0 && u >= t + 2 * epochMs
    ensures LiveEpochs(t, epochMs) * LiveEpochs(u, epochMs) == {}
  {
    TopicsMeet(t, u, epochMs);
    OneMoreQuotient(t, epochMs);
    OneMoreQuotient(t + epochMs, epochMs);
    QuotientGrows(t + epochMs + epochMs, u, epochMs);
  }

  /** One full period of skew is tolerated. */
  lemma SkewIsTolerated(t: int, u: int, epochMs: nat)
    requires epochMs > 0 && t <= u + epochMs && u <= t + epochMs
    ensures LiveEpochs(t, epochMs) * LiveEpochs(u, epochMs) != {}
  {
    TopicsMeet(t, u, epochMs);
    if t <= u { EpochsClose(t, u, epochMs); } else { EpochsClose(u, t, epochMs); }
  }

  lemma EpochsClose(t: int, u: int, epochMs: nat)
    requires epochMs > 0 && t <= u <= t + epochMs
    ensures Epoch(t, epochMs) <= Epoch(u, epochMs) <= Epoch(t, epochMs) + 1
  {
    var a: int, b: int := if t < 0 then 0 else t, if u < 0 then 0 else u;
    QuotientGrows(a, b, epochMs);
    QuotientGrows(b, a + epochMs, epochMs);
    OneMoreQuotient(a, epochMs);
    assert a / epochMs >= 0 by { QuotientIs(0, epochMs, 0, 0); QuotientGrows(0, a, epochMs); }
  }

  // ---- the code --------------------------------------------------------------------------------

  class RemoteControl {
    const cut: Labeller
    const epochMs: nat
    var status: Status
    var statusSentAt: int
    var statusTimer: Option<int>
    var peers: map<Peer, Entry>
    var joined: set<nat>
    var arrivals: set<Peer>
    var destroyed: bool
    ghost var flushes: seq<int>
    ghost var now: int

    ghost function View(): State
      reads this
    {
      State(status, statusSentAt, statusTimer, peers, arrivals, flushes, destroyed, now)
    }

    constructor (labels: Labeller, period: nat, at: int)
      requires period > 0
      ensures cut == labels && epochMs == period && View() == Start(at) && joined == {}
    {
      cut, epochMs := labels, period;
      status, statusSentAt, statusTimer, peers := STOPPED, 0, None, map[];
      joined, arrivals, flushes, destroyed, now := {}, {}, [], false, at;
    }

    method SendStatusTo(p: Peer)
      modifies this`peers
      ensures View() == SentTo(old(View()), p)
    {
      if p !in peers || !peers[p].verified { return; }
      peers := peers[p := peers[p].(last := Some(status))];
    }

    method FlushStatus(at: int)
      requires at == now
      modifies this`statusSentAt, this`statusTimer, this`peers, this`flushes
      ensures View() == Flushed(old(View()))
    {
      statusSentAt, statusTimer := at, None;
      flushes := flushes + [at];
      ghost var was := peers;
      var todo := peers.Keys;
      while todo != {}
        invariant todo <= was.Keys && peers.Keys == was.Keys
        invariant forall p :: p in was ==> peers[p] == if p in todo then was[p] else SentToAll(was, status)[p]
        invariant statusSentAt == at && statusTimer == None && flushes == old(flushes) + [at]
        decreases todo
      {
        var p :| p in todo;
        todo := todo - {p};
        SendStatusTo(p);
      }
      assert peers == SentToAll(was, status);
    }

    /** Takes over what was given; says whether the channel or the state moved. */
    method Adopt(next: Next) returns (changed: bool)
      modifies this`status
      ensures status == Updated(old(status), next, cut) && changed == Changed(old(status), status)
    {
      var streamId := status.streamId;
      if next.streamId.Unusable? {
        streamId := None;
      } else if next.streamId.Given? {
        streamId := if next.streamId.value.None? then None else cut(next.streamId.value.value);
      }
      var state := if next.state.Given? then next.state.value else status.state;
      var zapped := streamId != status.streamId;
      var position := if zapped then None else status.position;
      if !next.position.Absent? {
        var usable := next.position.Given? && next.position.value >= 0.0;
        position := if usable then Some(Round(next.position.value)) else None;
      }
      changed := zapped || state != status.state;
      status := Status(streamId, state, position);
    }

    method PublishStatus(next: Next, at: int)
      requires Enabled(View(), Publish(next, at))
      modifies this
      ensures View() == Step(old(View()), Publish(next, at), cut)
    {
      now := at;
      if destroyed { return; }
      var changed := Adopt(next);
      if !changed { return; }
      var since := at - statusSentAt;
      if since >= STATUS_MIN_MS {
        FlushStatus(at);
        return;
      }
      if statusTimer.Some? { return; }
      statusTimer := Some(at + STATUS_MIN_MS - since);
    }

    method OnTimer(at: int)
      requires Enabled(View(), TimerFires(at))
      modifies this
      ensures View() == Step(old(View()), TimerFires(at), cut)
    {
      now := at;
      statusTimer := None;
      FlushStatus(at);
    }

    method Attach(p: Peer)
      requires Enabled(View(), Attached(p))
      modifies this
      ensures View() == Step(old(View()), Attached(p), cut)
    {
      peers := peers[p := Entry(false, None)];
    }

    /** The peer named itself: it is listed, and its first status is a tick away. */
    method OnWhoami(p: Peer)
      requires Enabled(View(), Whoami(p))
      modifies this
      ensures View() == Step(old(View()), Whoami(p), cut)
    {
      if !peers[p].verified {
        peers := peers[p := peers[p].(verified := true)];
        arrivals := arrivals + {p};
      }
    }

    /** Our own hello was answered with a proof and a name: its first status goes at once. */
    method OnGreeted(p: Peer)
      requires Enabled(View(), Greeted(p))
      modifies this
      ensures View() == Step(old(View()), Greeted(p), cut)
    {
      if !peers[p].verified {
        peers := peers[p := peers[p].(verified := true)];
        SendStatusTo(p);
      }
    }

    method OnArrival(p: Peer)
      requires Enabled(View(), ArrivalRuns(p))
      modifies this
      ensures View() == Step(old(View()), ArrivalRuns(p), cut)
    {
      arrivals := arrivals - {p};
      SendStatusTo(p);
    }

    method DropPeer(p: Peer)
      requires Enabled(View(), Dropped(p))
      modifies this
      ensures View() == Step(old(View()), Dropped(p), cut)
    {
      peers := peers - {p};
    }

    /** The session is over: the timer cleared, every peer dropped, every topic left. */
    method Shutdown()
      modifies this
      ensures View() == Step(old(View()), Destroy, cut) && (!old(destroyed) ==> joined == {})
    {
      if destroyed { return; }
      destroyed := true;
      statusTimer := None;
      peers := map[];
      joined := {};
    }

    /** Joins what is missing and leaves what is over; a join that throws is tried again on the next tick. */
    method Rotate(t: int, failing: set<nat>)
      requires epochMs > 0
      modifies this`joined
      ensures joined == if destroyed then old(joined) else LiveEpochs(t, epochMs) - (failing - old(joined))
    {
      if destroyed { return; }
      var want := LiveEpochs(t, epochMs);
      var todo := want;
      while todo != {}
        invariant todo <= want && joined == old(joined) + ((want - todo) - failing)
        decreases todo
      {
        var e :| e in todo;
        todo := todo - {e};
        if e !in joined && e !in failing { joined := joined + {e}; }
      }
      var leaving := joined - want;
      while leaving != {}
        invariant leaving <= joined - want && joined == want * (old(joined) + (want - failing)) + leaving
        decreases leaving
      {
        var e :| e in leaving;
        leaving := leaving - {e};
        joined := joined - {e};
      }
    }
  }
}
