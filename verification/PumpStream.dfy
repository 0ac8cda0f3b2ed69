/**
 Piping a read stream into a response (sdk/serve.js, pump): at most `wanted` bytes from the start of the
 stream, with backpressure, an idle clock, and one call of onDone whichever way the piping ends.
 */
module PumpStream {
  import opened Wrappers

  type Byte = bv8

  datatype Config = Config(wanted: nat, idleMs: nat)

  /** Both ends as the pump leaves them: nothing yet, ended in order, or destroyed. */
  datatype Response = Open | Ended | Destroyed

  /** idleAt: when the idle clock will run out, unless a chunk comes first. */
  datatype State = State(sent: nat, done: bool, settled: nat, idleAt: Option<nat>, paused: bool, drainsDue: nat,
                         response: Response, written: seq<Byte>, delivered: seq<Byte>, now: nat)

  datatype Write = Accepted | Full | Throws

  datatype Event =
    | Data(chunk: seq<Byte>, write: Write)
    | End
    | ReadError
    | ResponseError
    | Close
    | Idle
    | Drain
    | Wait(until: nat)

  /** The idle clock set anew; no clock when it is off. */
  function Alarm(c: Config, now: nat): Option<nat> { if c.idleMs > 0 then Some(now + c.idleMs) else None }

  function Start(c: Config): State { State(0, false, 0, Alarm(c, 0), false, 0, Open, [], [], 0) }

  function Finished(s: State, abort: bool): State {
    if s.done then s
    else
      s.(done := true, idleAt := None, response := if abort then Destroyed else Ended, settled := s.settled + 1)
  }

  function Take(c: Config, s: State, chunk: seq<Byte>): seq<Byte>
    requires s.sent <= c.wanted
  {
    if s.sent + |chunk| > c.wanted then chunk[..c.wanted - s.sent] else chunk
  }

  function OnData(c: Config, s: State, chunk: seq<Byte>, write: Write): State
    requires s.sent <= c.wanted
  {
    if s.done then s
    else
      var out := Take(c, s, chunk);
      var t := s.(sent := s.sent + |out|, idleAt := Alarm(c, s.now), delivered := s.delivered + chunk);
      Wrote(c, t, out, write)
  }

  function Wrote(c: Config, s: State, out: seq<Byte>, write: Write): State {
    if write.Throws? then Finished(s, true)
    else
      var w := s.(written := s.written + out);
      if w.sent >= c.wanted then Finished(w, false)
      else if write.Full? then w.(paused := true, drainsDue := w.drainsDue + 1)
      else w
  }

  predicate Enabled(s: State, ev: Event) {
    && (ev.Idle? ==> s.idleAt.Some? && s.now >= s.idleAt.value)
    && (ev.Drain? ==> s.drainsDue > 0)
    && (ev.Wait? ==> ev.until >= s.now && (s.idleAt.Some? ==> ev.until <= s.idleAt.value))
  }

  function Step(c: Config, s: State, ev: Event): State
    requires s.sent <= c.wanted && Enabled(s, ev)
  {
    match ev
    case Data(chunk, write) => OnData(c, s, chunk, write)
    case End => Finished(s, false)
    case ReadError => Finished(s, true)
    case ResponseError => Finished(s, true)
    case Close => if s.done then s else s.(done := true, idleAt := None, settled := s.settled + 1)
    case Idle => Finished(s, true)
    case Drain => s.(drainsDue := s.drainsDue - 1, paused := s.paused && s.done)
    case Wait(t) => s.(now := t)
  }

  /** At most the first `wanted` bytes. */
  function Capped(c: Config, bytes: seq<Byte>): seq<Byte> {
    if |bytes| > c.wanted then bytes[..c.wanted] else bytes
  }

  predicate Inv(c: Config, s: State) {
    && s.sent <= c.wanted
    && s.settled == (if s.done then 1 else 0)
    && (s.idleAt.Some? <==> !s.done && c.idleMs > 0)
    && (s.idleAt.Some? ==> s.now <= s.idleAt.value <= s.now + c.idleMs)
    && s.written <= Capped(c, s.delivered)
    && (!s.done ==>
        s.response.Open? && s.written == s.delivered && |s.written| == s.sent && (s.sent < c.wanted || s.sent == 0))
    && (s.response.Ended? ==> s.written == Capped(c, s.delivered))
    && (!s.done && s.paused ==> s.drainsDue > 0)
  }

  lemma DataInv(c: Config, s: State, chunk: seq<Byte>, write: Write)
    requires Inv(c, s)
    ensures Inv(c, OnData(c, s, chunk, write))
  {
    if !s.done {
      var out, all := Take(c, s, chunk), s.delivered + chunk;
      assert s.written + out == Capped(c, all);
    }
  }

  lemma StepInv(c: Config, s: State, ev: Event)
    requires Inv(c, s) && Enabled(s, ev)
    ensures Inv(c, Step(c, s, ev))
  {
    if ev.Data? { DataInv(c, s, ev.chunk, ev.write); }
  }

  predicate Valid(c: Config, s: State, evs: seq<Event>)
    requires Inv(c, s)
    decreases |evs|
  {
    evs == [] || (Enabled(s, evs[0]) && (StepInv(c, s, evs[0]); Valid(c, Step(c, s, evs[0]), evs[1..])))
  }

  function Run(c: Config, s: State, evs: seq<Event>): State
    requires Inv(c, s) && Valid(c, s, evs)
    decreases |evs|
  {
    if evs == [] then s else StepInv(c, s, evs[0]); Run(c, Step(c, s, evs[0]), evs[1..])
  }

  lemma {:induction false} RunInv(c: Config, s: State, evs: seq<Event>)
    requires Inv(c, s) && Valid(c, s, evs)
    ensures Inv(c, Run(c, s, evs))
    decreases |evs|
  {
    if evs == [] {
    } else {
      StepInv(c, s, evs[0]);
      RunInv(c, Step(c, s, evs[0]), evs[1..]);
    }
  }

  /**
   On every run: what is written is a prefix of what the stream delivered and never more than wanted; a
   response ended in order carries all of it; and onDone is called once when the piping is over, not before.
   */
  lemma WritesACappedPrefix(c: Config, evs: seq<Event>)
    requires Valid(c, Start(c), evs)
    ensures
      var s := Run(c, Start(c), evs);
      && s.written <= s.delivered && |s.written| <= c.wanted
      && (s.response.Ended? ==> s.written == Capped(c, s.delivered))
      && s.settled == (if s.done then 1 else 0)
  {
    RunInv(c, Start(c), evs);
  }

  /** Nothing is written, ended or settled again once the piping is over. */
  lemma {:induction false} DoneIsFinal(c: Config, s: State, evs: seq<Event>)
    requires Inv(c, s) && s.done && Valid(c, s, evs)
    ensures
      var t := Run(c, s, evs);
      t.done && t.written == s.written && t.response == s.response && t.settled == s.settled
    decreases |evs|
  {
    if evs == [] {
    } else {
      StepInv(c, s, evs[0]);
      DoneIsFinal(c, Step(c, s, evs[0]), evs[1..]);
    }
  }

  /** A read that is neither over nor moving is cut off when the idle clock runs out, which it always can. */
  lemma NeverHangs(c: Config, evs: seq<Event>)
    requires Valid(c, Start(c), evs) && c.idleMs > 0
    ensures
      var s := Run(c, Start(c), evs);
      !s.done ==>
        && s.idleAt.Some? && s.idleAt.value <= s.now + c.idleMs && (s.paused ==> s.drainsDue > 0) && s.sent <= c.wanted
        && Enabled(s, Wait(s.idleAt.value))
        && var late := Step(c, s, Wait(s.idleAt.value));
        && late.sent <= c.wanted && Enabled(late, Idle) && Step(c, late, Idle).done
        && Step(c, late, Idle).response.Destroyed?
  {
    RunInv(c, Start(c), evs);
  }

  // ---- how it ends, by what happened alone -------------------------------------------------------

  /** The states a run passes through, from the first to the last. */
  function Trace(c: Config, s: State, evs: seq<Event>): (r: seq<State>)
    requires Inv(c, s) && Valid(c, s, evs)
    ensures |r| == |evs| + 1 && r[0] == s && r[|evs|] == Run(c, s, evs)
    decreases |evs|
  {
    [s] + if evs == [] then [] else (StepInv(c, s, evs[0]); Trace(c, Step(c, s, evs[0]), evs[1..]))
  }

  predicate Steps(c: Config, s: State, ev: Event, t: State) { Inv(c, s) && Enabled(s, ev) && t == Step(c, s, ev) }

  lemma {:induction false} TraceSteps(c: Config, s: State, evs: seq<Event>, i: nat)
    requires Inv(c, s) && Valid(c, s, evs) && i < |evs|
    ensures Steps(c, Trace(c, s, evs)[i], evs[i], Trace(c, s, evs)[i + 1])
    decreases |evs|
  {
    StepInv(c, s, evs[0]);
    if i == 0 {
    } else {
      TraceSteps(c, Step(c, s, evs[0]), evs[1..], i - 1);
    }
  }

  predicate Lands(ev: Event) { ev.Data? && !ev.write.Throws? }

  /** The bytes of the chunks whose writes did not throw. */
  function Offered(evs: seq<Event>): seq<Byte> {
    if evs == [] then []
    else
      var n := |evs| - 1;
      Offered(evs[..n]) + (if Lands(evs[n]) then evs[n].chunk else [])
  }

  /** The chunk that reaches what is wanted. */
  predicate Fills(c: Config, evs: seq<Event>, n: nat)
    requires n < |evs|
  {
    Lands(evs[n]) && |Offered(evs[..n + 1])| >= c.wanted
  }

  predicate Aborts(ev: Event) { ev.ReadError? || ev.ResponseError? || ev.Idle? || (ev.Data? && ev.write.Throws?) }

  predicate Stops(c: Config, evs: seq<Event>, n: nat)
    requires n < |evs|
  {
    evs[n].End? || Fills(c, evs, n) || Aborts(evs[n]) || evs[n].Close?
  }

  /** Of the first m events, the n-th is the first to stop the piping. */
  predicate FirstStop(c: Config, evs: seq<Event>, n: nat, m: nat)
    requires m <= |evs|
  {
    n < m && Stops(c, evs, n) && forall k :: 0 <= k < n ==> !Stops(c, evs, k)
  }

  /** A write met backpressure, and no drain has come since. */
  predicate Blocked(evs: seq<Event>, m: nat)
    requires m <= |evs|
  {
    exists k :: 0 <= k < m && BlockedSince(evs, k, m)
  }

  predicate BlockedSince(evs: seq<Event>, k: nat, m: nat)
    requires m <= |evs|
  {
    k < m && evs[k].Data? && evs[k].write.Full? && forall j :: k < j < m ==> !evs[j].Drain?
  }

  lemma BlockedOn(evs: seq<Event>, m: nat)
    requires m < |evs|
    ensures Blocked(evs, m + 1) <==> (evs[m].Data? && evs[m].write.Full?) || (Blocked(evs, m) && !evs[m].Drain?)
  {
    if Blocked(evs, m + 1) && !(evs[m].Data? && evs[m].write.Full?) {
      var k :| 0 <= k < m + 1 && BlockedSince(evs, k, m + 1);
      assert BlockedSince(evs, k, m);
    }
    if evs[m].Data? && evs[m].write.Full? { assert BlockedSince(evs, m, m + 1); }
    if Blocked(evs, m) && !evs[m].Drain? {
      var k :| 0 <= k < m && BlockedSince(evs, k, m);
      assert BlockedSince(evs, k, m + 1);
    }
  }

  predicate GoesOn(c: Config, evs: seq<Event>, m: nat, s: State)
    requires m <= |evs|
  {
    !s.done && s.response.Open? && s.settled == 0 && s.written == Offered(evs[..m]) && (s.paused <==> Blocked(evs, m))
  }

  predicate EndedBy(c: Config, evs: seq<Event>, n: nat, s: State)
    requires n < |evs|
  {
    && s.done && s.settled == 1 && s.written == Capped(c, Offered(evs[..n + 1]))
    && (s.response.Ended? <==> evs[n].End? || Fills(c, evs, n))
    && (s.response.Destroyed? <==> Aborts(evs[n]))
    && (s.response.Open? <==> evs[n].Close?)
  }

  lemma StillGoesOn(c: Config, evs: seq<Event>, m: nat, s: State)
    requires m < |evs| && Inv(c, s) && Enabled(s, evs[m]) && GoesOn(c, evs, m, s)
    ensures
      var t := Step(c, s, evs[m]);
      if Stops(c, evs, m) then EndedBy(c, evs, m, t) else GoesOn(c, evs, m + 1, t)
  {
    assert evs[..m + 1][..m] == evs[..m];
    BlockedOn(evs, m);
    assert Capped(c, s.written) == s.written;
    if evs[m].Data? && |Offered(evs[..m + 1])| > c.wanted {
      assert s.written + evs[m].chunk[..c.wanted - s.sent] == (s.written + evs[m].chunk)[..c.wanted];
    }
  }

  /**
   Over any run the first event to stop the piping decides it: the stream's end and the chunk that reaches what
   is wanted end the response in order; an error on either side, a write that throws and the idle clock
   destroy it; and a client that went away leaves it alone. Until one of them it goes on.
   */
  lemma {:induction false} FirstStopDecides(c: Config, evs: seq<Event>, m: nat)
    requires Valid(c, Start(c), evs) && m <= |evs|
    ensures
      var s := Trace(c, Start(c), evs)[m];
      && (forall n: nat :: FirstStop(c, evs, n, m) ==> EndedBy(c, evs, n, s))
      && ((forall n :: 0 <= n < m ==> !Stops(c, evs, n)) ==> GoesOn(c, evs, m, s))
  {
    if m == 0 {
    } else {
      var s := Trace(c, Start(c), evs)[m - 1];
      FirstStopDecides(c, evs, m - 1);
      TraceSteps(c, Start(c), evs, m - 1);
      if forall n :: 0 <= n < m - 1 ==> !Stops(c, evs, n) {
        StillGoesOn(c, evs, m - 1, s);
      } else {
        var q: nat :| q < m - 1 && Stops(c, evs, q);
        forall n: nat | FirstStop(c, evs, n, m) ensures EndedBy(c, evs, n, Trace(c, Start(c), evs)[m]) {
          assert n <= q;
          assert FirstStop(c, evs, n, m - 1);
          StaysEnded(c, evs, m - 1, s, n);
        }
      }
    }
  }

  lemma DoneStays(c: Config, s: State, ev: Event)
    requires Inv(c, s) && Enabled(s, ev) && s.done
    ensures
      var t := Step(c, s, ev);
      t.done && t.settled == s.settled && t.written == s.written && t.response == s.response
  {}

  lemma StaysEnded(c: Config, evs: seq<Event>, m: nat, s: State, n: nat)
    requires m < |evs| && Inv(c, s) && Enabled(s, evs[m]) && n < |evs| && EndedBy(c, evs, n, s)
    ensures EndedBy(c, evs, n, Step(c, s, evs[m]))
  {
    DoneStays(c, s, evs[m]);
  }

  lemma StepAlarm(c: Config, s: State, ev: Event)
    requires Inv(c, s) && Enabled(s, ev) && Step(c, s, ev).idleAt.Some?
    ensures
      var t := Step(c, s, ev);
      && s.idleAt.Some? && s.idleAt.value <= t.idleAt.value
      && t.idleAt.value == if ev.Data? then s.now + c.idleMs else s.idleAt.value
  {}

  /** Of the first m events, the last chunk came with this reading of the clock; 0 when none has. */
  predicate LastChunkAt(trace: seq<State>, evs: seq<Event>, m: nat, at: nat)
    requires m <= |evs| < |trace|
  {
    if m == 0 then at == 0
    else if evs[m - 1].Data? then at == trace[m - 1].now
    else LastChunkAt(trace, evs, m - 1, at)
  }

  /** The idle clock runs from the last chunk: a read that has moved within it is never cut off. */
  lemma {:induction false} AlarmIsSinceTheLastChunk(c: Config, evs: seq<Event>, m: nat)
    requires Valid(c, Start(c), evs) && m <= |evs| && Trace(c, Start(c), evs)[m].idleAt.Some?
    ensures
      var trace := Trace(c, Start(c), evs);
      trace[m].idleAt.value >= c.idleMs && LastChunkAt(trace, evs, m, trace[m].idleAt.value - c.idleMs)
  {
    if m == 0 {
    } else {
      var trace := Trace(c, Start(c), evs);
      TraceSteps(c, Start(c), evs, m - 1);
      StepAlarm(c, trace[m - 1], evs[m - 1]);
      AlarmIsSinceTheLastChunk(c, evs, m - 1);
    }
  }

  function Join(chunks: seq<seq<Byte>>): seq<Byte> {
    if chunks == [] then [] else chunks[0] + Join(chunks[1..])
  }

  /** The stream in chunks, each accepted or answered with backpressure, then its end. */
  function Feed(chunks: seq<seq<Byte>>, full: seq<bool>): seq<Event>
    requires |full| == |chunks|
  {
    if chunks == [] then [End]
    else [Data(chunks[0], if full[0] then Full else Accepted)] + Feed(chunks[1..], full[1..])
  }

  lemma {:induction false} FeedIsValid(c: Config, s: State, chunks: seq<seq<Byte>>, full: seq<bool>)
    requires Inv(c, s) && |full| == |chunks| && (s.done ==> s.response.Ended?)
    ensures Valid(c, s, Feed(chunks, full))
    ensures
      var t := Run(c, s, Feed(chunks, full));
      && t.done && t.response.Ended?
      && t.written == (if s.done then s.written else Capped(c, s.delivered + Join(chunks)))
    decreases |chunks|
  {
    var evs := Feed(chunks, full);
    StepInv(c, s, evs[0]);
    var t := Step(c, s, evs[0]);
    if chunks == [] {
      assert s.delivered + Join(chunks) == s.delivered;
      assert evs[1..] == [];
    } else {
      assert evs[1..] == Feed(chunks[1..], full[1..]);
      FeedIsValid(c, t, chunks[1..], full[1..]);
      assert (s.delivered + chunks[0]) + Join(chunks[1..]) == s.delivered + Join(chunks);
      if !s.done && t.done { CappedStays(c, t.delivered, Join(chunks[1..])); }
    }
  }

  lemma CappedStays(c: Config, bytes: seq<Byte>, more: seq<Byte>)
    requires |bytes| >= c.wanted
    ensures Capped(c, bytes + more) == Capped(c, bytes)
  {
    assert (bytes + more)[..c.wanted] == bytes[..c.wanted];
  }

  /** How the stream is cut into chunks, and where it meets backpressure, makes no difference. */
  lemma ChunkingDoesNotMatter(c: Config, chunks: seq<seq<Byte>>, full: seq<bool>)
    requires |full| == |chunks|
    ensures
      && Valid(c, Start(c), Feed(chunks, full))
      && Run(c, Start(c), Feed(chunks, full)).written == Capped(c, Join(chunks))
  {
    FeedIsValid(c, Start(c), chunks, full);
    assert [] + Join(chunks) == Join(chunks);
  }

  // ---- the code --------------------------------------------------------------------------------

  class Pump {
    const config: Config
    var sent: nat
    var done: bool
    var idleAt: Option<nat>
    var paused: bool
    var drainsDue: nat
    var response: Response
    var written: seq<Byte>
    /** Calls of onDone; it is cleared before it is called. */
    var settled: nat
    var onDone: bool
    ghost var delivered: seq<Byte>
    ghost var now: nat

    ghost function View(): State
      reads this
    {
      State(sent, done, settled, idleAt, paused, drainsDue, response, written, delivered, now)
    }

    ghost predicate Good()
      reads this
    {
      Inv(config, View()) && (onDone <==> !done)
    }

    constructor (c: Config)
      ensures config == c && View() == Start(c) && Good()
    {
      config := c;
      sent, done, settled, onDone := 0, false, 0, true;
      idleAt := if c.idleMs > 0 then Some(c.idleMs) else None;
      paused, drainsDue, response := false, 0, Open;
      written, delivered, now := [], [], 0;
    }

    method Settle()
      modifies this`settled, this`onDone
      ensures !onDone && settled == old(settled) + (if old(onDone) then 1 else 0)
    {
      if !onDone { return; }
      onDone := false;
      settled := settled + 1;
    }

    method Finish(abort: bool)
      requires onDone <==> !done
      modifies this`done, this`idleAt, this`response, this`settled, this`onDone
      ensures View() == Finished(old(View()), abort) && (onDone <==> !done)
    {
      if done { return; }
      done, idleAt := true, None;
      response := if abort then Destroyed else Ended;
      Settle();
    }

    /** `at`: what the clock reads when the chunk comes. */
    method OnChunk(chunk: seq<Byte>, write: Write, at: nat)
      requires Good() && at == now
      modifies this
      ensures Good() && View() == Step(config, old(View()), Data(chunk, write))
    {
      StepInv(config, View(), Data(chunk, write));
      Forward(chunk, write, at);
    }

    method ArmIdle(at: nat)
      modifies this`idleAt
      ensures idleAt == if config.idleMs > 0 then Some(at + config.idleMs) else old(idleAt)
    {
      if config.idleMs == 0 { return; }
      idleAt := Some(at + config.idleMs);
    }

    method Forward(chunk: seq<Byte>, write: Write, at: nat)
      requires sent <= config.wanted && (onDone <==> !done) && at == now && (config.idleMs == 0 ==> idleAt.None?)
      modifies this
      ensures View() == OnData(config, old(View()), chunk, write) && (onDone <==> !done)
    {
      if done { return; }
      ArmIdle(at);
      delivered := delivered + chunk;
      var out := if sent + |chunk| > config.wanted then chunk[..config.wanted - sent] else chunk;
      sent := sent + |out|;
      Push(out, write);
    }

    method Push(out: seq<Byte>, write: Write)
      requires onDone <==> !done
      modifies this
      ensures View() == Wrote(config, old(View()), out, write) && (onDone <==> !done)
    {
      if write.Throws? {
        Finish(true);
        return;
      }
      written := written + out;
      if sent >= config.wanted {
        Finish(false);
      } else if write.Full? {
        paused, drainsDue := true, drainsDue + 1;
      }
    }

    method OnDrain()
      requires Good() && drainsDue > 0
      modifies this
      ensures Good() && View() == Step(config, old(View()), Drain)
    {
      drainsDue := drainsDue - 1;
      if !done { paused := false; }
    }

    /** The stream's end or error, the response's error, or the idle clock. */
    method OnEnd(ev: Event)
      requires Good() && (ev.End? || ev.ReadError? || ev.ResponseError? || (ev.Idle? && Enabled(View(), ev)))
      modifies this
      ensures Good() && View() == Step(config, old(View()), ev)
    {
      StepInv(config, View(), ev);
      Finish(!ev.End?);
    }

    ghost method Elapse(until: nat)
      requires Good() && Enabled(View(), Wait(until))
      modifies this`now
      ensures Good() && View() == Step(config, old(View()), Wait(until))
    {
      now := until;
    }

    /** The client went away: nothing is left to end or destroy but the read. */
    method OnClose()
      requires Good()
      modifies this
      ensures Good() && View() == Step(config, old(View()), Close)
    {
      if !done {
        done, idleAt := true, None;
        Settle();
      }
    }
  }

}
