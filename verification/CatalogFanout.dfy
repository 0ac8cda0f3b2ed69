/**
 The login's catalog reads (sdk/login.js, openSession): up to eight workers share a cursor over the granted
 ids, each read raced against one deadline, and the results land by index so that the stream list comes out
 in login order.

 Workers run between their awaits without interruption, in any order; a read may answer, reject, or lose
 its race, and the clock may give any readings.
 */
module CatalogFanout {
  import opened Wrappers

  const CATALOG_GET_CONCURRENCY := 8

  /** A granted id: what its sealed key opens to, and what the catalog holds for it. */
  datatype Grant = Grant(id: string, key: Option<string>, record: Option<string>)

  datatype Stream = Stream(id: string, record: string, key: string)

  /** Hole: never written. Nothing: rejected or timed out. */
  datatype Node = Hole | Nothing | Read(record: Option<string>)

  datatype Worker = Ready | Getting(i: nat) | Gone

  datatype State = State(cursor: nat, timedOut: bool, rejected: bool, nodes: seq<Node>, workers: seq<Worker>,
                         asked: seq<nat>)

  datatype Outcome = Answers | Rejects | TimesOut

  datatype Event = Begin(w: nat, left: int) | Resume(w: nat, outcome: Outcome, left: int)

  function Workers(n: nat): nat { if n < CATALOG_GET_CONCURRENCY then n else CATALOG_GET_CONCURRENCY }

  function Init(ids: seq<Grant>): State {
    State(0, false, false, seq(|ids|, _ => Hole), seq(Workers(|ids|), _ => Ready), [])
  }

  // ---- the steps -------------------------------------------------------------------------------

  /** The head of a worker's loop: claim the next index and start its read if there is time left. */
  function Claim(ids: seq<Grant>, s: State, w: nat, left: int): State
    requires w < |s.workers|
  {
    var i, t := s.cursor, s.(cursor := s.cursor + 1);
    if i >= |ids| then t.(workers := s.workers[w := Gone])
    else if left <= 0 then t.(workers := s.workers[w := Gone], timedOut := true)
    else t.(workers := s.workers[w := Getting(i)], asked := s.asked + [i])
  }

  function Landed(ids: seq<Grant>, s: State, i: nat, o: Outcome): State
    requires i < |ids| == |s.nodes|
  {
    match o
    case Answers => s.(nodes := s.nodes[i := Read(ids[i].record)])
    case Rejects => s.(nodes := s.nodes[i := Nothing], rejected := true)
    case TimesOut => s.(nodes := s.nodes[i := Nothing], timedOut := true)
  }

  predicate Enabled(ids: seq<Grant>, s: State, ev: Event) {
    match ev
    case Begin(w, _) => w < |s.workers| && s.workers[w].Ready?
    case Resume(w, _, _) => w < |s.workers| && s.workers[w].Getting? && s.workers[w].i < |ids| == |s.nodes|
  }

  function Step(ids: seq<Grant>, s: State, ev: Event): State
    requires Enabled(ids, s, ev)
  {
    match ev
    case Begin(w, left) => Claim(ids, s, w, left)
    case Resume(w, o, left) => Claim(ids, Landed(ids, s, s.workers[w].i, o), w, left)
  }

  predicate Valid(ids: seq<Grant>, s: State, evs: seq<Event>)
    decreases |evs|
  {
    evs == [] || (Enabled(ids, s, evs[0]) && Valid(ids, Step(ids, s, evs[0]), evs[1..]))
  }

  function Run(ids: seq<Grant>, s: State, evs: seq<Event>): State
    requires Valid(ids, s, evs)
    decreases |evs|
  {
    if evs == [] then s else Run(ids, Step(ids, s, evs[0]), evs[1..])
  }

  /** Promise.all over the workers. */
  predicate AllGone(s: State) { forall w :: 0 <= w < |s.workers| ==> s.workers[w].Gone? }

  // ---- the projection --------------------------------------------------------------------------

  function Entry(g: Grant, node: Node): seq<Stream> {
    if g.key.Some? && node.Read? && node.record.Some? then [Stream(g.id, node.record.value, g.key.value)] else []
  }

  function Streams(ids: seq<Grant>, nodes: seq<Node>): seq<Stream>
    requires |ids| == |nodes|
  {
    if ids == [] then []
    else Streams(ids[..|ids| - 1], nodes[..|ids| - 1]) + Entry(ids[|ids| - 1], nodes[|ids| - 1])
  }

  /** The loop this replaced: one read after another, in order. */
  function Serial(ids: seq<Grant>): seq<Stream> {
    FlatMap((g: Grant) =>
              if g.key.Some? && g.record.Some? then [Stream(g.id, g.record.value, g.key.value)] else [], ids)
  }

  // ---- invariants ------------------------------------------------------------------------------

  /** Worker w owns its index, alone, and nothing is written there yet. */
  predicate WorkerOk(ids: seq<Grant>, s: State, w: nat)
    requires w < |s.workers|
  {
    match s.workers[w]
    case Ready => true
    case Gone => s.cursor > |ids| || s.timedOut
    case Getting(i) =>
      && i < |ids| && i < |s.nodes| && i < s.cursor && s.nodes[i].Hole?
      && (forall v :: 0 <= v < |s.workers| && v != w ==> s.workers[v] != Getting(i))
  }

  predicate Held(s: State, i: nat) { Getting(i) in s.workers }

  predicate NodeOk(ids: seq<Grant>, s: State, i: nat)
    requires i < |ids| == |s.nodes|
  {
    && (s.nodes[i].Read? ==> s.nodes[i].record == ids[i].record)
    && (s.nodes[i].Nothing? ==> s.timedOut || s.rejected)
    && (s.nodes[i].Hole? && i < s.cursor ==> Held(s, i) || s.timedOut)
    && (!s.nodes[i].Hole? ==> i < s.cursor)
  }

  predicate AskedOk(s: State) {
    && (forall k :: 0 <= k < |s.asked| ==> s.asked[k] < s.cursor)
    && (forall j, k :: 0 <= j < k < |s.asked| ==> s.asked[j] < s.asked[k])
  }

  predicate Inv(ids: seq<Grant>, s: State) {
    && |s.nodes| == |ids| && |s.workers| == Workers(|ids|)
    && (forall w :: 0 <= w < |s.workers| ==> WorkerOk(ids, s, w))
    && (forall i :: 0 <= i < |ids| ==> NodeOk(ids, s, i))
    && AskedOk(s)
  }

  /** Worker w has just landed its read: its own index is the only one nobody holds. */
  predicate Between(ids: seq<Grant>, s: State, w: nat) {
    && |s.nodes| == |ids| && |s.workers| == Workers(|ids|) && w < |s.workers|
    && (forall v :: 0 <= v < |s.workers| && v != w ==> WorkerOk(ids, s, v))
    && (s.workers[w].Getting? ==> forall v :: 0 <= v < |s.workers| && v != w ==> s.workers[v] != s.workers[w])
    && (s.workers[w].Getting? && s.workers[w].i < |ids| ==> !s.nodes[s.workers[w].i].Hole?)
    && (forall i :: 0 <= i < |ids| ==> NodeOk(ids, s, i))
    && AskedOk(s)
  }

  lemma ClaimInv(ids: seq<Grant>, s: State, w: nat, left: int)
    requires Between(ids, s, w)
    ensures Inv(ids, Claim(ids, s, w, left))
  {
    var t := Claim(ids, s, w, left);
    forall v | 0 <= v < |t.workers|
      ensures WorkerOk(ids, t, v)
    {
      if v != w { assert WorkerOk(ids, s, v); }
      ClaimOthers(ids, s, w, left, v);
    }
    forall i | 0 <= i < |ids| ensures NodeOk(ids, t, i) { ClaimNode(ids, s, w, left, i); }
  }

  lemma ClaimOthers(ids: seq<Grant>, s: State, w: nat, left: int, v: nat)
    requires Between(ids, s, w) && v < |s.workers|
    ensures WorkerOk(ids, Claim(ids, s, w, left), v)
  {
    var t := Claim(ids, s, w, left);
    forall u | 0 <= u < |s.workers| && u != w ensures s.workers[u] != Getting(s.cursor) { assert WorkerOk(ids, s, u); }
    if v != w {
      assert WorkerOk(ids, s, v);
      assert s.workers[v] == t.workers[v];
      assert forall u :: 0 <= u < |t.workers| && u != w ==> t.workers[u] == s.workers[u];
    }
    if s.cursor < |ids| { assert NodeOk(ids, s, s.cursor); }
  }

  lemma ClaimNode(ids: seq<Grant>, s: State, w: nat, left: int, i: nat)
    requires Between(ids, s, w) && i < |ids|
    ensures NodeOk(ids, Claim(ids, s, w, left), i)
  {
    var t := Claim(ids, s, w, left);
    assert NodeOk(ids, s, i);
    if i == s.cursor {
      assert t.workers[w] == Getting(i) || t.timedOut;
    } else if s.nodes[i].Hole? && i < s.cursor && !s.timedOut {
      var v :| 0 <= v < |s.workers| && s.workers[v] == Getting(i);
      assert v != w;
      assert t.workers[v] == Getting(i);
    }
  }

  lemma LandedInv(ids: seq<Grant>, s: State, w: nat, o: Outcome)
    requires Inv(ids, s) && w < |s.workers| && s.workers[w].Getting? && s.workers[w].i < |ids|
    ensures Between(ids, Landed(ids, s, s.workers[w].i, o), w)
  {
    var at := s.workers[w].i;
    var t := Landed(ids, s, at, o);
    assert WorkerOk(ids, s, w);
    forall v | 0 <= v < |t.workers| && v != w ensures WorkerOk(ids, t, v) { assert WorkerOk(ids, s, v); }
    forall i | 0 <= i < |ids| ensures NodeOk(ids, t, i) { assert NodeOk(ids, s, i); }
  }

  lemma StepInv(ids: seq<Grant>, s: State, ev: Event)
    requires Inv(ids, s) && Enabled(ids, s, ev)
    ensures Inv(ids, Step(ids, s, ev))
  {
    match ev
    case Begin(w, left) => ClaimInv(ids, s, w, left);
    case Resume(w, o, left) =>
      LandedInv(ids, s, w, o);
      ClaimInv(ids, Landed(ids, s, s.workers[w].i, o), w, left);
  }

  lemma {:induction false} RunInv(ids: seq<Grant>, s: State, evs: seq<Event>)
    requires Inv(ids, s) && Valid(ids, s, evs)
    ensures Inv(ids, Run(ids, s, evs))
    decreases |evs|
  {
    if evs == [] {
    } else {
      StepInv(ids, s, evs[0]);
      RunInv(ids, Step(ids, s, evs[0]), evs[1..]);
    }
  }

  lemma InitInv(ids: seq<Grant>)
    ensures Inv(ids, Init(ids))
  {}

  // ---- what is to blame ------------------------------------------------------------------------

  /** A worker found no time left, or lost its race against the deadline. */
  predicate Late(ev: Event) { ev.left <= 0 || (ev.Resume? && ev.outcome.TimesOut?) }

  predicate Refused(ev: Event) { ev.Resume? && ev.outcome.Rejects? }

  /** The reads started and the nodes written say the same: an index was asked for when it is held or has landed. */
  predicate AskedIsStarted(ids: seq<Grant>, s: State) {
    forall i: nat :: i < |ids| == |s.nodes| ==> (i in s.asked <==> Held(s, i) || !s.nodes[i].Hole?)
  }

  lemma ClaimKeepsAsked(ids: seq<Grant>, s: State, w: nat, left: int, i: nat)
    requires Between(ids, s, w) && i < |ids|
    requires i in s.asked <==>
             !s.nodes[i].Hole? || exists v :: 0 <= v < |s.workers| && v != w && s.workers[v] == Getting(i)
    ensures
      var t := Claim(ids, s, w, left);
      && (i in t.asked <==> Held(t, i) || !t.nodes[i].Hole?)
      && (|t.asked| > |s.asked| ==> left > 0)
  {
    var t := Claim(ids, s, w, left);
    assert forall v :: 0 <= v < |s.workers| && v != w ==> t.workers[v] == s.workers[v];
    if v :| 0 <= v < |s.workers| && v != w && s.workers[v] == Getting(i) { assert t.workers[v] == Getting(i); }
    if Held(t, i) {
      var v :| 0 <= v < |t.workers| && t.workers[v] == Getting(i);
      assert v != w ==> s.workers[v] == Getting(i);
    }
    if t.workers[w] == Getting(i) { assert t.workers[w] in t.workers; }
  }

  lemma StepKeepsAsked(ids: seq<Grant>, s: State, ev: Event)
    requires Inv(ids, s) && AskedIsStarted(ids, s) && Enabled(ids, s, ev)
    ensures AskedIsStarted(ids, Step(ids, s, ev))
    ensures |Step(ids, s, ev).asked| > |s.asked| ==> ev.left > 0
  {
    var t := Step(ids, s, ev);
    var w := ev.w;
    if ev.Resume? { LandedInv(ids, s, w, ev.outcome); }
    var mid := if ev.Resume? then Landed(ids, s, s.workers[w].i, ev.outcome) else s;
    assert Between(ids, mid, w);
    forall i: nat | i < |ids| == |t.nodes|
      ensures i in t.asked <==> Held(t, i) || !t.nodes[i].Hole?
      ensures |t.asked| > |s.asked| ==> ev.left > 0
    {
      assert i in s.asked <==> Held(s, i) || !s.nodes[i].Hole?;
      if Held(s, i) { var v :| 0 <= v < |s.workers| && s.workers[v] == Getting(i); assert WorkerOk(ids, s, v); }
      ClaimKeepsAsked(ids, mid, w, ev.left, i);
    }
  }

  lemma {:induction false} RunBlame(ids: seq<Grant>, s: State, evs: seq<Event>)
    requires Inv(ids, s) && AskedIsStarted(ids, s) && Valid(ids, s, evs)
    ensures
      var t := Run(ids, s, evs);
      && AskedIsStarted(ids, t)
      && (!s.timedOut && (forall n :: 0 <= n < |evs| ==> !Late(evs[n])) ==> !t.timedOut)
      && (!s.rejected && (forall n :: 0 <= n < |evs| ==> !Refused(evs[n])) ==> !t.rejected)
      && ((forall n :: 0 <= n < |evs| ==> evs[n].left <= 0) ==> t.asked == s.asked)
    decreases |evs|
  {
    if evs == [] {
    } else {
      var t := Step(ids, s, evs[0]);
      StepInv(ids, s, evs[0]);
      StepKeepsAsked(ids, s, evs[0]);
      assert (forall n :: 0 <= n < |evs| ==> evs[n].left <= 0) ==> evs[0].left <= 0 && t.asked == s.asked;
      RunBlame(ids, t, evs[1..]);
    }
  }

  // ---- main results ----------------------------------------------------------------------------

  /** No index is ever read twice, and indexes are asked for in order, whatever the schedule. */
  lemma EachIndexAskedOnce(ids: seq<Grant>, evs: seq<Event>, j: nat, k: nat)
    requires Valid(ids, Init(ids), evs) && j < k < |Run(ids, Init(ids), evs).asked|
    ensures Run(ids, Init(ids), evs).asked[j] < Run(ids, Init(ids), evs).asked[k]
  {
    InitInv(ids);
    RunInv(ids, Init(ids), evs);
  }

  /** Never more than eight reads at once; and when the workers are gone with no timeout, every index has landed. */
  lemma EveryIndexLandsUnlessCutOff(ids: seq<Grant>, evs: seq<Event>, i: nat)
    requires Valid(ids, Init(ids), evs) && i < |ids|
    ensures
      var s := Run(ids, Init(ids), evs);
      && |s.workers| <= CATALOG_GET_CONCURRENCY && |s.nodes| == |ids|
      && (AllGone(s) && !s.timedOut ==> !s.nodes[i].Hole?)
  {
    InitInv(ids);
    RunInv(ids, Init(ids), evs);
    var s := Run(ids, Init(ids), evs);
    if AllGone(s) && !s.timedOut {
      assert WorkerOk(ids, s, 0);
      assert NodeOk(ids, s, i);
    }
  }

  lemma EveryNodeRead(ids: seq<Grant>, s: State, i: nat)
    requires Inv(ids, s) && AllGone(s) && !s.timedOut && !s.rejected && i < |ids|
    ensures s.nodes[i] == Read(ids[i].record)
  {
    assert WorkerOk(ids, s, 0);
    assert NodeOk(ids, s, i);
  }

  lemma {:induction false} AllReadIsSerial(ids: seq<Grant>, nodes: seq<Node>)
    requires |ids| == |nodes| && forall i :: 0 <= i < |ids| ==> nodes[i] == Read(ids[i].record)
    ensures Streams(ids, nodes) == Serial(ids)
  {
    if ids == [] {
    } else {
      AllReadIsSerial(ids[..|ids| - 1], nodes[..|ids| - 1]);
    }
  }

  /** With no timeout and no rejection, every schedule delivers exactly what the serial loop would. */
  lemma FanoutIsSerial(ids: seq<Grant>, evs: seq<Event>)
    requires Valid(ids, Init(ids), evs)
    requires var s := Run(ids, Init(ids), evs); AllGone(s) && !s.timedOut && !s.rejected
    ensures var s := Run(ids, Init(ids), evs); |s.nodes| == |ids| && Streams(ids, s.nodes) == Serial(ids)
  {
    InitInv(ids);
    RunInv(ids, Init(ids), evs);
    var s := Run(ids, Init(ids), evs);
    forall i | 0 <= i < |ids| ensures s.nodes[i] == Read(ids[i].record) { EveryNodeRead(ids, s, i); }
    AllReadIsSerial(ids, s.nodes);
  }

  /**
   With time left whenever a worker looked, and no read late or refused, the fan-out is the serial loop; as many
   workers run as there are ids, and eight at most; what was asked for is what is under way or has landed, and
   nothing is asked for once there is no time left.
   */
  lemma PunctualFanoutIsSerial(ids: seq<Grant>, evs: seq<Event>, more: seq<Event>)
    requires Valid(ids, Init(ids), evs) && Valid(ids, Run(ids, Init(ids), evs), more)
    ensures
      var s := Run(ids, Init(ids), evs);
      && |s.nodes| == |ids| && |s.workers| == (if |ids| < 8 then |ids| else 8) && AskedIsStarted(ids, s)
      && (AllGone(s) && (forall n :: 0 <= n < |evs| ==> !Late(evs[n]) && !Refused(evs[n])) ==>
            Streams(ids, s.nodes) == Serial(ids))
      && ((forall n :: 0 <= n < |more| ==> more[n].left <= 0) ==> Run(ids, s, more).asked == s.asked)
  {
    InitInv(ids);
    RunInv(ids, Init(ids), evs);
    RunBlame(ids, Init(ids), evs);
    RunBlame(ids, Run(ids, Init(ids), evs), more);
    var s := Run(ids, Init(ids), evs);
    if AllGone(s) && forall n :: 0 <= n < |evs| ==> !Late(evs[n]) && !Refused(evs[n]) { FanoutIsSerial(ids, evs); }
  }

  /**
   Each turn of a worker lands what it held and claims the next index: to read it, or to stop for want of ids
   or time.
   */
  lemma EveryTurnClaims(ids: seq<Grant>, s: State, ev: Event)
    requires Inv(ids, s) && Enabled(ids, s, ev)
    ensures
      var t := Step(ids, s, ev);
      && t.cursor == s.cursor + 1 && |t.workers| == |s.workers|
      && t.workers[ev.w] == (if s.cursor < |ids| && ev.left > 0 then Getting(s.cursor) else Gone)
      && (forall v :: 0 <= v < |s.workers| && v != ev.w ==> t.workers[v] == s.workers[v])
      && (ev.Begin? ==> t.nodes == s.nodes)
      && (ev.Resume? ==>
            var i := s.workers[ev.w].i;
            t.nodes == s.nodes[i := if ev.outcome.Answers? then Read(ids[i].record) else Nothing])
  {}

  function GoneCount(workers: seq<Worker>): nat {
    if workers == [] then 0 else GoneCount(workers[..|workers| - 1]) + (if workers[|workers| - 1].Gone? then 1 else 0)
  }

  lemma {:induction false} GoneAfter(workers: seq<Worker>, w: nat, now: Worker)
    requires w < |workers|
    ensures GoneCount(workers[w := now]) + (if workers[w].Gone? then 1 else 0)
      == GoneCount(workers) + (if now.Gone? then 1 else 0)
  {
    var last := |workers| - 1;
    if w == last {
      assert workers[w := now][..last] == workers[..last];
    } else {
      assert workers[w := now][..last] == workers[..last][w := now];
      GoneAfter(workers[..last], w, now);
    }
  }

  lemma {:induction false} GoneAtMost(workers: seq<Worker>)
    ensures GoneCount(workers) <= |workers|
  {
    if workers == [] {
    } else {
      GoneAtMost(workers[..|workers| - 1]);
    }
  }

  lemma {:induction false} RunIsShort(ids: seq<Grant>, s: State, evs: seq<Event>)
    requires Inv(ids, s) && Valid(ids, s, evs) && s.cursor <= |ids| + GoneCount(s.workers)
    ensures
      var t := Run(ids, s, evs);
      t.cursor == s.cursor + |evs| && t.cursor <= |ids| + GoneCount(t.workers) && |t.workers| == |s.workers|
    decreases |evs|
  {
    if evs == [] {
    } else {
      var t := Step(ids, s, evs[0]);
      StepInv(ids, s, evs[0]);
      EveryTurnClaims(ids, s, evs[0]);
      GoneAfter(s.workers, evs[0].w, t.workers[evs[0].w]);
      assert t.workers == s.workers[evs[0].w := t.workers[evs[0].w]];
      RunIsShort(ids, t, evs[1..]);
    }
  }

  /** The fan-out ends: no schedule takes more turns than there are ids and workers together. */
  lemma FanoutEnds(ids: seq<Grant>, evs: seq<Event>)
    requires Valid(ids, Init(ids), evs)
    ensures |evs| <= |ids| + (if |ids| < 8 then |ids| else 8)
  {
    InitInv(ids);
    RunInv(ids, Init(ids), evs);
    RunIsShort(ids, Init(ids), evs);
    GoneAtMost(Run(ids, Init(ids), evs).workers);
  }

  /** `part` is `whole` with some elements left out. */
  predicate Subsequence(part: seq<Stream>, whole: seq<Stream>) {
    if part == [] then true
    else if whole == [] then false
    else if part[|part| - 1] == whole[|whole| - 1] && Subsequence(part[..|part| - 1], whole[..|whole| - 1]) then true
    else Subsequence(part, whole[..|whole| - 1])
  }

  lemma SubsequenceBoth(part: seq<Stream>, whole: seq<Stream>, last: Stream)
    requires Subsequence(part, whole)
    ensures Subsequence(part + [last], whole + [last]) && Subsequence(part, whole + [last])
  {
    assert (part + [last])[..|part|] == part && (whole + [last])[..|whole|] == whole;
  }

  lemma {:induction false} PartialIsSubsequence(ids: seq<Grant>, nodes: seq<Node>)
    requires |ids| == |nodes| && forall i :: 0 <= i < |ids| && nodes[i].Read? ==> nodes[i].record == ids[i].record
    ensures Subsequence(Streams(ids, nodes), Serial(ids))
  {
    if ids == [] {
    } else {
      var n := |ids| - 1;
      PartialIsSubsequence(ids[..n], nodes[..n]);
      var part, whole, g := Streams(ids[..n], nodes[..n]), Serial(ids[..n]), ids[n];
      if g.key.Some? && g.record.Some? {
        SubsequenceBoth(part, whole, Stream(g.id, g.record.value, g.key.value));
        assert Serial(ids) == whole + [Stream(g.id, g.record.value, g.key.value)];
        assert part + [] == part;
      } else {
        assert part + [] == part && whole + [] == whole;
      }
    }
  }

  /** Whatever timed out or was rejected, what is delivered is true and in login order: streams are only left out. */
  lemma PartialCatalogIsInOrder(ids: seq<Grant>, evs: seq<Event>)
    requires Valid(ids, Init(ids), evs)
    ensures var s := Run(ids, Init(ids), evs); |s.nodes| == |ids| && Subsequence(Streams(ids, s.nodes), Serial(ids))
  {
    InitInv(ids);
    RunInv(ids, Init(ids), evs);
    var s := Run(ids, Init(ids), evs);
    forall i | 0 <= i < |ids| && s.nodes[i].Read? ensures s.nodes[i].record == ids[i].record {
      assert NodeOk(ids, s, i);
    }
    PartialIsSubsequence(ids, s.nodes);
  }

  /** The workers never deadlock: until all are gone one of them can move. */
  lemma SomeWorkerCanMove(ids: seq<Grant>, evs: seq<Event>)
    requires Valid(ids, Init(ids), evs) && !AllGone(Run(ids, Init(ids), evs))
    ensures exists ev :: Enabled(ids, Run(ids, Init(ids), evs), ev)
  {
    InitInv(ids);
    RunInv(ids, Init(ids), evs);
    var s := Run(ids, Init(ids), evs);
    var w :| 0 <= w < |s.workers| && !s.workers[w].Gone?;
    assert WorkerOk(ids, s, w);
    assert Enabled(ids, s, if s.workers[w].Ready? then Begin(w, 0) else Resume(w, TimesOut, 0));
  }

  // ---- the code --------------------------------------------------------------------------------

  class CatalogReader {
    const ids: seq<Grant>
    const nodes: array<Node>
    var cursor: nat
    var timedOut: bool
    var workers: seq<Worker>
    ghost var rejected: bool
    ghost var asked: seq<nat>

    ghost function View(): State
      reads this, nodes
    {
      State(cursor, timedOut, rejected, nodes[..], workers, asked)
    }

    constructor (granted: seq<Grant>)
      ensures ids == granted && fresh(nodes) && View() == Init(granted)
    {
      ids := granted;
      nodes := new Node[|granted|](_ => Hole);
      cursor, timedOut, rejected, asked := 0, false, false, [];
      workers := seq(Workers(|granted|), _ => Ready);
    }

    method ClaimNext(w: nat, left: int)
      requires w < |workers|
      modifies this
      ensures View() == Claim(ids, old(View()), w, left)
    {
      var i := cursor;
      cursor := cursor + 1;
      if i >= |ids| {
        workers := workers[w := Gone];
        return;
      }
      if left <= 0 {
        timedOut := true;
        workers := workers[w := Gone];
        return;
      }
      asked := asked + [i];
      workers := workers[w := Getting(i)];
    }

    method BeginWorker(w: nat, left: int)
      requires Enabled(ids, View(), Begin(w, left))
      modifies this, nodes
      ensures View() == Step(ids, old(View()), Begin(w, left))
    {
      ClaimNext(w, left);
    }

    method ResumeWorker(w: nat, o: Outcome, left: int)
      requires Enabled(ids, View(), Resume(w, o, left))
      modifies this, nodes
      ensures View() == Step(ids, old(View()), Resume(w, o, left))
    {
      var i := workers[w].i;
      match o {
        case Answers => nodes[i] := Read(ids[i].record);
        case Rejects =>
          nodes[i] := Nothing;
          rejected := true;
        case TimesOut =>
          nodes[i] := Nothing;
          timedOut := true;
      }
      assert View() == Landed(ids, old(View()), i, o);
      ClaimNext(w, left);
    }

    method Project() returns (streams: seq<Stream>)
      requires nodes.Length == |ids|
      ensures streams == Streams(ids, nodes[..])
    {
      streams := [];
      for i := 0 to |ids|
        invariant streams == Streams(ids[..i], nodes[..i])
      {
        assert ids[..i + 1][..i] == ids[..i] && nodes[..i + 1][..i] == nodes[..i];
        if ids[i].key.Some? && nodes[i].Read? && nodes[i].record.Some? {
          streams := streams + [Stream(ids[i].id, nodes[i].record.value, ids[i].key.value)];
        }
      }
      assert ids[..|ids|] == ids && nodes[..|ids|] == nodes[..];
    }
  }
}
