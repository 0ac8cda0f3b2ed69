/**
 The receiving role of the sign-in handover (sdk/signin-pair.js, receiveSignIn): the television.

 Any number of sockets may connect on the public topic; their messages, the timers, the viewer's
 digits, cancels and hangups interleave freely. A message may still arrive on a channel that was dropped or
 after the handover has settled. Each responder, listener and timer is one atomic step. Timers fire when
 they are due; the clock is monotone.
 */
module SigninReceiver {
  import opened Wrappers
  import opened SigninWire

  datatype Outcome = Resolved(payload: Payload) | Rejected(reason: Reason)

  datatype Config = Config(secret: Bytes, start: nat, expiresAt: nat, pinMs: nat, payloadMs: nat)

  /** The code record of core/remote.js, whose code and stamps are well formed here. */
  datatype Record = Record(expiresAt: nat, usedAt: Option<nat>)

  datatype CodeState = Live | ExpiredCode | UsedCode

  function SigninCodeState(rec: Record, now: nat): CodeState {
    if rec.usedAt.Some? then UsedCode
    else if now >= rec.expiresAt then ExpiredCode
    else Live
  }

  function ConsumeSigninCode(rec: Record, now: nat): Option<Record> {
    if SigninCodeState(rec, now) != Live then None else Some(rec.(usedAt := Some(now)))
  }

  datatype Peer = Peer(socket: nat, link: Link, nonceTv: Bytes, sasShown: bool)

  /** `waiting`: the phone's request is held open; `answer`: it was resolved, the responder has not resumed. */
  datatype PinState = PinState(asked: bool, sent: bool, waiting: bool, answer: Option<Option<string>>,
                               pending: Option<string>)

  /** Work put off to the next timer tick with a zero delay. */
  datatype Chore = Finish(payload: Payload) | Fail(reason: Reason) | Drop(socket: nat)

  /** links: every connection accepted; rpcs: the channels not destroyed. */
  datatype Net = Net(links: map<nat, Link>, rpcs: set<nat>, accepted: nat, opens: nat, chores: seq<Chore>)

  datatype Reply =
    | Silence | Refuse(reason: Reason)
    | HelloOk(proof: Mac, commit: Mac) | Reveal(nonce: Bytes) | PinOk(proof: Mac) | Ack

  /** The progress the handover can make, as the wire and the screen show it. */
  datatype Milestone =
    | Linked(socket: nat, link: Link, proof: Mac, at: nat, committed: Bytes)
    | Shown(socket: nat, sas: Mac, revealed: Bytes, theirs: Bytes)
    | PinProved(socket: nat, digits: string)
    | Received(socket: nat, payload: Payload)

  datatype State = State(
    settled: Option<Outcome>,
    rec: Record,
    peer: Option<Peer>,
    pin: PinState,
    deadline: nat,
    net: Net,
    clock: nat,
    reply: Reply,
    trail: seq<Milestone>)

  datatype Event =
    | Connect(link: Link) | Open(socket: nat) | SocketClose(socket: nat)
    | Hello(socket: nat, readable: bool, known: bool, proof: Option<Mac>, drawn: Bytes)
    | NonceMsg(socket: nat, nonce: Option<Bytes>)
    | PinMsg(socket: nat, readable: bool)
    | PinResume
    | PayloadMsg(socket: nat, payload: Option<Payload>)
    | AbortMsg(socket: nat, reason: Option<Reason>)
    | SubmitPin(digits: string) | Cancel | DeadlineFires | ChoreFires | Wait(until: nat)

  function Init(c: Config): State {
    State(None, Record(c.expiresAt, None), None, PinState(false, false, false, None, None),
          FirstDeadline(c), Net(map[], {}, 0, 0, []), c.start, Silence, [])
  }

  /** The code's own expiry, at least one millisecond after arming. */
  function FirstDeadline(c: Config): nat {
    if c.expiresAt > c.start then c.expiresAt else c.start + 1
  }

  predicate Enabled(s: State, e: Event) {
    match e
    case Connect(link) => link.hash == [] || IsHash(link.hash)  // empty: the socket has none yet
    case Open(k) => k in s.net.rpcs
    case SocketClose(k) => k < s.net.accepted
    case Hello(k, _, _, _, drawn) => k in s.net.links && IsNonce(drawn)
    case NonceMsg(k, n) => k in s.net.links && (n.Some? ==> IsNonce(n.value))
    case PinMsg(k, _) => k in s.net.links
    case PinResume => s.pin.answer.Some?
    case PayloadMsg(k, _) => k in s.net.links
    case AbortMsg(k, _) => k in s.net.links
    case SubmitPin(_) => true
    case Cancel => true
    case DeadlineFires => s.settled.None? && s.clock >= s.deadline
    case ChoreFires => s.net.chores != []
    case Wait(t) => t >= s.clock && (s.settled.None? ==> t <= s.deadline)
  }

  // ---- what each step does --------------------------------------------------------------------

  /** The single exit: the record is spent, a held request is let go, every channel is closed. */
  function FinishWith(s: State, o: Outcome): State {
    if s.settled.Some? then s
    else
      s.(settled := Some(o),
         rec := s.rec.(usedAt := if s.rec.usedAt.Some? then s.rec.usedAt else Some(s.clock)),
         pin := if s.pin.waiting then s.pin.(waiting := false, answer := Some(None)) else s.pin,
         net := s.net.(rpcs := {}))
  }

  function FailWith(s: State, r: Reason): State { FinishWith(s, Rejected(r)) }

  predicate IsPeer(s: State, socket: nat) { s.peer.Some? && s.peer.value.socket == socket }

  /** The exclusion: test the record and store the spent one, with nothing in between. */
  function Claim(s: State): (Option<Reason>, Record) {
    if s.peer.Some? then (Some(Busy), s.rec)
    else
      match ConsumeSigninCode(s.rec, s.clock)
      case None => (Some(if SigninCodeState(s.rec, s.clock) == ExpiredCode then Expired else Used), s.rec)
      case Some(next) => (None, next)
  }

  function Later(s: State, chore: Chore): State { s.(net := s.net.(chores := s.net.chores + [chore])) }

  function Say(s: State, r: Reply): State { s.(reply := r) }

  function Reach(s: State, m: Milestone): State { s.(trail := s.trail + [m]) }

  function OnOpen(s: State): State {
    if s.settled.Some? then s
    else
      var t := s.(net := s.net.(opens := s.net.opens + 1));
      if t.net.opens > MAX_SIGNIN_CONNECTIONS then FailWith(t, Flooded) else t
  }

  /** The claimed peer: it has the code, and it is the only one this side ever commits a nonce to. */
  function Commit(c: Config, s: State, k: nat, link: Link, proof: Mac, rec: Record, drawn: Bytes): State {
    var t := s.(rec := rec, peer := Some(Peer(k, link, drawn, false)), deadline := s.clock + c.pinMs);
    Say(Reach(t, Linked(k, link, proof, s.clock, drawn)),
        HelloOk(RemoteProof(c.secret, link.hash, link.role), NonceCommit(c.secret, link.hash, drawn)))
  }

  function OnHello(c: Config, s: State, e: Event): State
    requires e.Hello? && Enabled(s, e)
  {
    if s.settled.Some? then Say(s, Refuse(Cancelled))
    else if !e.readable then Say(s, Refuse(if e.known then Version else Malformed))
    else
      var link := s.net.links[e.socket];
      if link.hash == [] || e.proof != Some(RemoteProof(c.secret, link.hash, PeerRole(link.role))) then
        Say(Later(s, Drop(e.socket)), Refuse(Unauthorized))
      else
        var (refused, rec) := Claim(s);
        if refused.Some? then Say(s, Refuse(refused.value))
        else Commit(c, s, e.socket, link, e.proof.value, rec, e.drawn)
  }

  function OnNonce(c: Config, s: State, k: nat, nonce: Option<Bytes>): State {
    if s.settled.Some? then Say(s, Refuse(Cancelled))
    else if !IsPeer(s, k) then Say(s, Refuse(Unauthorized))
    else
      var p := s.peer.value;
      if p.sasShown then Say(s, Refuse(Used))
      else if nonce.None? then Say(s, Refuse(Malformed))
      else
        var t := s.(peer := Some(p.(sasShown := true)));
        Say(Reach(t, Shown(k, SasDigits(c.secret, p.link, p.nonceTv, nonce.value), p.nonceTv, nonce.value)),
            Reveal(p.nonceTv))
  }

  /** The tail of the PIN responder, once it holds the digits or has been let go without any. */
  function AnswerPin(c: Config, s: State, digits: Option<string>): State {
    if s.settled.Some? || digits.None? || s.peer.None? then Say(s.(pin := s.pin.(waiting := false)), Refuse(Cancelled))
    else
      var p := s.peer.value;
      var t := s.(pin := s.pin.(waiting := false, sent := true), deadline := s.clock + c.payloadMs);
      Say(Reach(t, PinProved(p.socket, digits.value)),
          PinOk(PinProof(c.secret, p.link.hash, p.link.role, digits.value)))
  }

  function OnPin(c: Config, s: State, k: nat, readable: bool): State {
    if !IsPeer(s, k) || !s.peer.value.sasShown then Say(s, Refuse(Unauthorized))
    else if !readable then Say(s, Refuse(Malformed))
    else if s.pin.asked then Say(s, Refuse(Used))
    else
      var t := s.(pin := s.pin.(asked := true));
      if t.pin.pending.Some? then AnswerPin(c, t, t.pin.pending)
      else Say(t.(pin := t.pin.(waiting := true)), Silence)
  }

  function OnPayload(s: State, k: nat, payload: Option<Payload>): State {
    if s.settled.Some? then Say(s, Refuse(Cancelled))
    else if !IsPeer(s, k) || !s.pin.sent then Say(s, Refuse(Unauthorized))
    else if payload.None? || NormalizePayload(payload.value).None? then Say(s, Refuse(Malformed))
    else
      var p := NormalizePayload(payload.value).value;
      Say(Later(Reach(s, Received(k, p)), Finish(p)), Ack)
  }

  function OnAbort(s: State, k: nat, reason: Option<Reason>): State {
    if !IsPeer(s, k) then Say(s, Ack)
    else Say(Later(s, Fail(if reason.Some? then reason.value else Cancelled)), Ack)
  }

  predicate Accepts(s: State, digits: string) {
    s.settled.None? && !s.pin.sent && IsPin(digits) && s.peer.Some?
  }

  function OnSubmit(s: State, digits: string): State {
    if !Accepts(s, digits) then s
    else if s.pin.waiting then s.(pin := s.pin.(waiting := false, answer := Some(Some(digits))))
    else s.(pin := s.pin.(pending := Some(digits)))
  }

  function OnClose(s: State, k: nat): State {
    var t := s.(net := s.net.(rpcs := s.net.rpcs - {k}));
    if IsPeer(s, k) then FailWith(t, Timeout) else t
  }

  function RunChore(s: State): State
    requires s.net.chores != []
  {
    var t := s.(net := s.net.(chores := s.net.chores[1..]));
    match s.net.chores[0]
    case Finish(p) => FinishWith(t, Resolved(p))
    case Fail(r) => FailWith(t, r)
    case Drop(k) => t.(net := t.net.(rpcs := t.net.rpcs - {k}))
  }

  function Step(c: Config, s: State, e: Event): State
    requires Enabled(s, e)
  {
    match e
    case Connect(link) =>
      if s.settled.Some? then s
      else
        var k := s.net.accepted;
        s.(net := s.net.(links := s.net.links[k := link], rpcs := s.net.rpcs + {k}, accepted := k + 1))
    case Open(_) => OnOpen(s)
    case SocketClose(k) => OnClose(s, k)
    case Hello(_, _, _, _, _) => OnHello(c, s, e)
    case NonceMsg(k, n) => OnNonce(c, s, k, n)
    case PinMsg(k, readable) => OnPin(c, s, k, readable)
    case PinResume => AnswerPin(c, s.(pin := s.pin.(answer := None)), s.pin.answer.value)
    case PayloadMsg(k, p) => OnPayload(s, k, p)
    case AbortMsg(k, r) => OnAbort(s, k, r)
    case SubmitPin(d) => OnSubmit(s, d)
    case Cancel => FailWith(s, Cancelled)
    case DeadlineFires => FailWith(s, if s.peer.Some? then Timeout else Expired)
    case ChoreFires => RunChore(s)
    case Wait(t) => s.(clock := t)
  }

  // ---- what every step keeps ------------------------------------------------------------------

  /** The i-th milestone is of the i-th kind, with its evidence; from the fourth on, payloads. */
  predicate InOrder(c: Config, trail: seq<Milestone>, i: nat)
    requires i < |trail|
  {
    match trail[i]
    case Linked(_, link, proof, at, committed) =>
      && i == 0 && link.hash != [] && proof == RemoteProof(c.secret, link.hash, PeerRole(link.role))
      && at < c.expiresAt && IsNonce(committed)
    case Shown(_, sas, revealed, theirs) =>
      i == 1 && trail[0].Linked? && revealed == trail[0].committed && IsNonce(theirs)
      && sas == SasDigits(c.secret, trail[0].link, revealed, theirs)
    case PinProved(_, digits) => i == 2 && IsPin(digits)
    case Received(_, payload) => i >= 3 && NormalizePayload(payload) == Some(payload)
  }

  /** The claimed peer is the one the first milestone names, with the nonce committed to it. */
  predicate PeerOk(s: State) {
    s.peer.Some? && s.trail != [] ==>
      s.trail[0].Linked? && s.peer.value.link == s.trail[0].link && s.peer.value.nonceTv == s.trail[0].committed
  }

  predicate TrailFlags(s: State) {
    && (|s.trail| >= 1 <==> s.peer.Some?)
    && (|s.trail| >= 2 <==> s.peer.Some? && s.peer.value.sasShown)
    && (|s.trail| >= 3 <==> s.pin.sent)
  }

  /** The trail is a prefix of Linked, Shown, PinProved, Received, Received, ... on the claimed socket. */
  predicate TrailOk(c: Config, s: State) {
    && (forall i :: 0 <= i < |s.trail| ==> InOrder(c, s.trail, i) && IsPeer(s, s.trail[i].socket))
    && TrailFlags(s) && PeerOk(s)
  }

  predicate PinOrderly(s: State) {
    && (s.pin.asked ==> s.peer.Some? && s.peer.value.sasShown)
    && (s.pin.sent ==> s.pin.asked && !s.pin.waiting && s.pin.answer.None?)
    && (s.pin.waiting ==> s.pin.asked && s.pin.answer.None?)
    && (s.pin.answer.Some? ==> s.pin.asked)
    && (s.pin.answer.Some? && s.pin.answer.value.Some? ==> IsPin(s.pin.answer.value.value))
    && (s.pin.pending.Some? ==> IsPin(s.pin.pending.value))
  }

  predicate RecordOk(c: Config, s: State) {
    && s.rec.expiresAt == c.expiresAt
    && (s.rec.usedAt.Some? <==> s.peer.Some? || s.settled.Some?)
    && (s.settled.Some? ==> s.net.rpcs == {})
  }

  /** A deadline is always armed, and how late it can be depends on how far the handover has come. */
  predicate DeadlineOk(c: Config, s: State) {
    s.settled.None? ==>
      && s.clock <= s.deadline
      && s.deadline <= FirstDeadline(c)
                       + (if s.peer.Some? then c.pinMs else 0) + (if s.pin.sent then c.payloadMs else 0)
  }

  function FirstFinish(chores: seq<Chore>): Option<Payload> {
    if chores == [] then None
    else if chores[0].Finish? then Some(chores[0].payload)
    else FirstFinish(chores[1..])
  }

  function FirstReceived(trail: seq<Milestone>): Option<Payload> {
    if |trail| > 3 && trail[3].Received? then Some(trail[3].payload) else None
  }

  /** The payload that resolves the handover is the first one received, however many arrive before it settles. */
  predicate OutcomeOk(s: State) {
    match s.settled
    case None => FirstFinish(s.net.chores) == FirstReceived(s.trail)
    case Some(o) => o.Resolved? ==> FirstReceived(s.trail) == Some(o.payload)
  }

  lemma {:induction false} FirstFinishAppend(chores: seq<Chore>, chore: Chore)
    ensures FirstFinish(chores + [chore])
      == if FirstFinish(chores).Some? then FirstFinish(chores) else if chore.Finish? then Some(chore.payload) else None
  {
    if chores == [] {
    } else {
      assert (chores + [chore])[1..] == chores[1..] + [chore];
      if !chores[0].Finish? { FirstFinishAppend(chores[1..], chore); }
    }
  }

  predicate Inv(c: Config, s: State) {
    TrailOk(c, s) && PinOrderly(s) && RecordOk(c, s) && DeadlineOk(c, s) && OutcomeOk(s)
  }

  /** What is never undone: a spent record, the claimed peer, the outcome, and anything on the trail. */
  predicate Follows(s: State, t: State) {
    && (s.rec.usedAt.Some? ==> t.rec == s.rec)
    && (s.peer.Some? ==> t.peer.Some? && t.peer.value.(sasShown := s.peer.value.sasShown) == s.peer.value)
    && (s.settled.Some? ==> t.settled == s.settled && t.trail == s.trail)
    && s.trail <= t.trail
  }

  lemma StepFollows(c: Config, s: State, e: Event)
    requires Enabled(s, e)
    ensures Follows(s, Step(c, s, e))
  {}

  predicate AboutPin(e: Event) { e.PinMsg? || e.PinResume? || e.SubmitPin? }

  /** These settle the handover, or leave it as it is but for sockets and channels. */
  predicate Ending(e: Event) { e.Open? || e.SocketClose? || e.Cancel? || e.DeadlineFires? || e.ChoreFires? }

  lemma EndingKeeps(c: Config, s: State, e: Event)
    requires Enabled(s, e) && Ending(e)
    ensures
      var t := Step(c, s, e);
      && t.trail == s.trail && t.peer == s.peer
      && (t.pin == s.pin || (s.pin.waiting && t.pin == s.pin.(waiting := false, answer := Some(None))))
      && (!e.ChoreFires? ==> t.net.chores == s.net.chores)
      && (t.settled != s.settled ==> t.settled.Some? && (!e.ChoreFires? ==> t.settled.value.Rejected?))
  {}

  /** A step adds at most one milestone, the next in order, on the claimed socket. */
  predicate Appends(c: Config, s: State, t: State) {
    && |t.trail| <= |s.trail| + 1 && s.trail <= t.trail && PeerOk(t)
    && (|t.trail| > |s.trail| ==> InOrder(c, t.trail, |s.trail|) && IsPeer(t, t.trail[|s.trail|].socket))
  }

  lemma HelloAppends(c: Config, s: State, e: Event)
    requires TrailFlags(s) && PeerOk(s) && RecordOk(c, s) && Enabled(s, e) && e.Hello?
    ensures Appends(c, s, Step(c, s, e)) && TrailFlags(Step(c, s, e))
  {}

  lemma NonceAppends(c: Config, s: State, e: Event)
    requires TrailFlags(s) && PeerOk(s) && PinOrderly(s) && Enabled(s, e) && e.NonceMsg?
    ensures Appends(c, s, Step(c, s, e)) && TrailFlags(Step(c, s, e))
  {}

  lemma PinAppends(c: Config, s: State, e: Event)
    requires TrailFlags(s) && PeerOk(s) && PinOrderly(s) && Enabled(s, e) && AboutPin(e)
    ensures Appends(c, s, Step(c, s, e)) && TrailFlags(Step(c, s, e))
  {}

  lemma PayloadAppends(c: Config, s: State, e: Event)
    requires TrailFlags(s) && PeerOk(s) && Enabled(s, e) && e.PayloadMsg?
    ensures Appends(c, s, Step(c, s, e)) && TrailFlags(Step(c, s, e))
  {
    if e.payload.Some? && NormalizePayload(e.payload.value).Some? { NormalizedPayloadIsStable(e.payload.value); }
  }

  lemma StepAppends(c: Config, s: State, e: Event)
    requires TrailFlags(s) && PeerOk(s) && PinOrderly(s) && RecordOk(c, s) && Enabled(s, e)
    ensures Appends(c, s, Step(c, s, e)) && TrailFlags(Step(c, s, e))
  {
    if e.Hello? { HelloAppends(c, s, e); }
    else if e.NonceMsg? { NonceAppends(c, s, e); }
    else if AboutPin(e) { PinAppends(c, s, e); }
    else if e.PayloadMsg? { PayloadAppends(c, s, e); }
    else if Ending(e) { EndingKeeps(c, s, e); }
  }

  lemma StepTrailOk(c: Config, s: State, e: Event)
    requires TrailOk(c, s) && PinOrderly(s) && RecordOk(c, s) && Enabled(s, e)
    ensures TrailOk(c, Step(c, s, e))
  {
    StepAppends(c, s, e);
    StepFollows(c, s, e);
    var t := Step(c, s, e);
    forall i | 0 <= i < |t.trail| ensures InOrder(c, t.trail, i) && IsPeer(t, t.trail[i].socket) {
      if i < |s.trail| { assert InOrder(c, s.trail, i) && t.trail[i] == s.trail[i] && t.trail[0] == s.trail[0]; }
    }
  }

  lemma AskKeepsPinOrderly(c: Config, s: State, e: Event)
    requires PinOrderly(s) && Enabled(s, e) && AboutPin(e)
    ensures PinOrderly(Step(c, s, e))
  {}

  lemma TalkKeepsPinOrderly(c: Config, s: State, e: Event)
    requires PinOrderly(s) && RecordOk(c, s) && Enabled(s, e) && !AboutPin(e) && !Ending(e)
    ensures PinOrderly(Step(c, s, e))
  {}

  lemma StepPinOrderly(c: Config, s: State, e: Event)
    requires PinOrderly(s) && RecordOk(c, s) && Enabled(s, e)
    ensures PinOrderly(Step(c, s, e))
  {
    if AboutPin(e) {
      AskKeepsPinOrderly(c, s, e);
    } else if Ending(e) {
      EndingKeeps(c, s, e);
    } else {
      TalkKeepsPinOrderly(c, s, e);
    }
  }

  lemma StepRecordOk(c: Config, s: State, e: Event)
    requires RecordOk(c, s) && Enabled(s, e)
    ensures RecordOk(c, Step(c, s, e))
  {}

  lemma StepDeadlineOk(c: Config, s: State, e: Event)
    requires PinOrderly(s) && DeadlineOk(c, s) && Enabled(s, e)
    ensures DeadlineOk(c, Step(c, s, e))
  {}

  lemma ChoreOutcomeOk(s: State)
    requires OutcomeOk(s) && s.net.chores != []
    ensures OutcomeOk(RunChore(s))
  {}

  /** What a step puts off: at most one chore, a finish exactly when it receives a payload. */
  ghost predicate OneChore(s: State, e: Event, t: State) {
    && (t.settled != s.settled ==> t.settled.Some? && t.settled.value.Rejected? && t.trail == s.trail)
    && (t.net.chores == s.net.chores || exists chore :: t.net.chores == s.net.chores + [chore])
    && (if |s.net.chores| < |t.net.chores| && t.net.chores[|s.net.chores|].Finish?
        then
          && e.PayloadMsg? && |s.trail| >= 3
          && t.trail == s.trail + [Received(e.socket, t.net.chores[|s.net.chores|].payload)]
        else FirstReceived(t.trail) == FirstReceived(s.trail))
  }

  lemma MessageOneChore(c: Config, s: State, e: Event)
    requires TrailFlags(s) && PinOrderly(s) && Enabled(s, e) && (e.Hello? || e.AbortMsg? || e.PayloadMsg?)
    ensures OneChore(s, e, Step(c, s, e))
  {
    var t := Step(c, s, e);
    if t.net.chores != s.net.chores {
      assert t.net.chores == s.net.chores + [t.net.chores[|s.net.chores|]];
    }
  }

  lemma PinOneChore(c: Config, s: State, e: Event)
    requires TrailFlags(s) && PinOrderly(s) && Enabled(s, e) && AboutPin(e)
    ensures OneChore(s, e, Step(c, s, e))
  {}

  /** Apart from running one, a step puts off at most one chore: a finish exactly when it receives a payload. */
  lemma StepOneChore(c: Config, s: State, e: Event)
    requires TrailFlags(s) && PinOrderly(s) && Enabled(s, e) && !e.ChoreFires?
    ensures OneChore(s, e, Step(c, s, e))
  {
    if AboutPin(e) { PinOneChore(c, s, e); }
    else if Ending(e) { EndingKeeps(c, s, e); }
    else if e.Hello? || e.AbortMsg? || e.PayloadMsg? { MessageOneChore(c, s, e); }
  }

  lemma StepOutcomeOk(c: Config, s: State, e: Event)
    requires TrailOk(c, s) && PinOrderly(s) && OutcomeOk(s) && Enabled(s, e)
    ensures OutcomeOk(Step(c, s, e))
  {
    var t := Step(c, s, e);
    if e.ChoreFires? {
      ChoreOutcomeOk(s);
    } else {
      StepOneChore(c, s, e);
      if t.net.chores != s.net.chores { FirstFinishAppend(s.net.chores, t.net.chores[|s.net.chores|]); }
    }
  }

  lemma StepInv(c: Config, s: State, e: Event)
    requires Inv(c, s) && Enabled(s, e)
    ensures Inv(c, Step(c, s, e))
  {
    StepTrailOk(c, s, e);
    StepPinOrderly(c, s, e);
    StepRecordOk(c, s, e);
    StepDeadlineOk(c, s, e);
    StepOutcomeOk(c, s, e);
  }

  // ---- every run ------------------------------------------------------------------------------

  predicate Valid(c: Config, s: State, es: seq<Event>)
    decreases |es|
  {
    es == [] || (Enabled(s, es[0]) && Valid(c, Step(c, s, es[0]), es[1..]))
  }

  function Run(c: Config, s: State, es: seq<Event>): State
    requires Valid(c, s, es)
    decreases |es|
  {
    if es == [] then s else Run(c, Step(c, s, es[0]), es[1..])
  }

  lemma {:induction false} RunInv(c: Config, s: State, es: seq<Event>)
    requires Inv(c, s) && Valid(c, s, es)
    ensures Inv(c, Run(c, s, es))
    decreases |es|
  {
    if es == [] {
    } else {
      StepInv(c, s, es[0]);
      RunInv(c, Step(c, s, es[0]), es[1..]);
    }
  }

  lemma FollowsTransitive(r: State, s: State, t: State)
    requires Follows(r, s) && Follows(s, t)
    ensures Follows(r, t)
  {
    assert r.trail <= s.trail <= t.trail;
  }

  lemma {:induction false} RunFollows(c: Config, s: State, es: seq<Event>)
    requires Valid(c, s, es)
    ensures Follows(s, Run(c, s, es))
    decreases |es|
  {
    if es == [] {
    } else {
      var t := Step(c, s, es[0]);
      StepFollows(c, s, es[0]);
      RunFollows(c, t, es[1..]);
      FollowsTransitive(s, t, Run(c, t, es[1..]));
    }
  }

  /**
   Over every run the record goes from live to used at most once and never back, at most one socket is
   ever claimed, and on it the handover commits, reveals one nonce, sends one PIN proof and only then
   accepts payloads, in that order; nothing joins the trail once the handover has settled.
   */
  lemma HandoverInOrder(c: Config, before: seq<Event>, after: seq<Event>)
    requires Valid(c, Init(c), before) && Valid(c, Run(c, Init(c), before), after)
    ensures
      var s := Run(c, Init(c), before);
      var t := Run(c, s, after);
      && TrailOk(c, s) && TrailOk(c, t) && Follows(s, t)
      && (t.rec.usedAt.Some? <==> t.peer.Some? || t.settled.Some?)
      && (t.settled.Some? && t.settled.value.Resolved? ==> FirstReceived(t.trail) == Some(t.settled.value.payload))
  {
    RunInv(c, Init(c), before);
    RunInv(c, Run(c, Init(c), before), after);
    RunFollows(c, Run(c, Init(c), before), after);
  }

  /** At most one commitment, one reveal and one PIN proof are ever made. */
  lemma OneOfEach(c: Config, es: seq<Event>, i: nat, j: nat)
    requires Valid(c, Init(c), es)
    requires i < |Run(c, Init(c), es).trail| && j < |Run(c, Init(c), es).trail|
    ensures
      var trail := Run(c, Init(c), es).trail;
      && (trail[i].Linked? && trail[j].Linked? ==> i == j)
      && (trail[i].Shown? && trail[j].Shown? ==> i == j)
      && (trail[i].PinProved? && trail[j].PinProved? ==> i == j)
      && trail[i].socket == trail[j].socket
  {
    RunInv(c, Init(c), es);
  }

  /**
   A payload is accepted exactly when the handover is open, on the claimed socket, after its PIN proof.
   Nothing else is asked: until the zero-delay finish runs, a second payload is accepted and reported too.
   */
  lemma PayloadAcceptedIff(c: Config, es: seq<Event>, k: nat, payload: Option<Payload>)
    requires Valid(c, Init(c), es) && Enabled(Run(c, Init(c), es), PayloadMsg(k, payload))
    ensures
      var s := Run(c, Init(c), es);
      var t := Step(c, s, PayloadMsg(k, payload));
      && (t.reply == Ack <==> s.settled.None? && IsPeer(s, k) && |s.trail| >= 3
                              && payload.Some? && NormalizePayload(payload.value).Some?)
      && (t.reply == Ack ==> t.trail == s.trail + [Received(k, NormalizePayload(payload.value).value)]
                             && t.settled.None?)
      && (t.reply != Ack ==> t.trail == s.trail && t.settled == s.settled)
  {
    RunInv(c, Init(c), es);
  }

  /** The receiver settles: by the last deadline it can arm, whatever anyone sends. */
  lemma SettlesInTime(c: Config, es: seq<Event>)
    requires Valid(c, Init(c), es)
    ensures
      var s := Run(c, Init(c), es);
      && (s.settled.None? ==> s.clock <= s.deadline)
      && (s.clock > FirstDeadline(c) + c.pinMs + c.payloadMs ==> s.settled.Some?)
  {
    RunInv(c, Init(c), es);
  }

  /** While it has not settled, something always can move it on: waiting up to the deadline, or the deadline itself. */
  lemma DeadlineAlwaysComes(c: Config, es: seq<Event>)
    requires Valid(c, Init(c), es) && Run(c, Init(c), es).settled.None?
    ensures
      var s := Run(c, Init(c), es);
      && Enabled(s, Wait(s.deadline))
      && Enabled(Step(c, s, Wait(s.deadline)), DeadlineFires)
      && Step(c, Step(c, s, Wait(s.deadline)), DeadlineFires).settled.Some?
  {
    RunInv(c, Init(c), es);
  }

  // ---- by what happened alone ------------------------------------------------------------------

  /** The states a run passes through, from the first to the last. */
  function Trace(c: Config, s: State, es: seq<Event>): (r: seq<State>)
    requires Valid(c, s, es)
    ensures |r| == |es| + 1 && r[0] == s && r[|es|] == Run(c, s, es)
    decreases |es|
  {
    [s] + if es == [] then [] else Trace(c, Step(c, s, es[0]), es[1..])
  }

  lemma {:induction false} TraceSteps(c: Config, s: State, es: seq<Event>, i: nat)
    requires Valid(c, s, es) && i < |es|
    ensures
      var r := Trace(c, s, es);
      Enabled(r[i], es[i]) && r[i + 1] == Step(c, r[i], es[i])
    decreases |es|
  {
    if i == 0 {
    } else {
      TraceSteps(c, Step(c, s, es[0]), es[1..], i - 1);
    }
  }

  /** Whether the event comes from, or is about, the claimed socket. */
  predicate FromPeer(s: State, k: nat) { s.peer.Some? && s.peer.value.socket == k }

  /**
   What ends an open handover, and as what: a cancel, the deadline, the claimed socket closing, the ninth
   channel opened, and a finish or failure that was put off; nothing else does.
   */
  function EndOf(s: State, e: Event): Option<Outcome> {
    match e
    case Cancel => Some(Rejected(Cancelled))
    case DeadlineFires => Some(Rejected(if s.peer.Some? then Timeout else Expired))
    case SocketClose(k) => if FromPeer(s, k) then Some(Rejected(Timeout)) else None
    case Open(_) => if s.net.opens >= 8 then Some(Rejected(Flooded)) else None
    case ChoreFires =>
      if s.net.chores == [] then None
      else
        (match s.net.chores[0]
         case Finish(p) => Some(Resolved(p))
         case Fail(r) => Some(Rejected(r))
         case Drop(_) => None)
    case _ => None
  }

  /**
   Until it has ended, exactly these end it; then its record is spent, its channels closed and nobody kept
   waiting.
   */
  lemma EndsExactlyBy(c: Config, s: State, e: Event)
    requires Enabled(s, e) && s.settled.None?
    ensures
      var t := Step(c, s, e);
      && t.settled == EndOf(s, e)
      && (t.settled.Some? ==>
            && t.rec.usedAt.Some? && t.net.rpcs == {} && !t.pin.waiting
            && (s.pin.waiting ==> t.pin.answer == Some(None)))
  {}

  /**
   A connection gets a channel while the handover is open; it loses it when it closes, fails the proof, or at
   the end.
   */
  lemma ChannelsAreAsTold(c: Config, s: State, e: Event)
    requires Enabled(s, e) && s.settled.None?
    ensures
      var t := Step(c, s, e);
      && t.net.rpcs ==
         (if EndOf(s, e).Some? then {}
          else
            match e
            case Connect(_) => s.net.rpcs + {s.net.accepted}
            case SocketClose(k) => s.net.rpcs - {k}
            case ChoreFires => if s.net.chores[0].Drop? then s.net.rpcs - {s.net.chores[0].socket} else s.net.rpcs
            case _ => s.net.rpcs)
      && t.net.accepted == s.net.accepted + (if e.Connect? then 1 else 0)
      && (e.Connect? ==> t.net.links == s.net.links[s.net.accepted := e.link])
        && (!e.Connect? ==> t.net.links == s.net.links)
  {}

  function Opened(es: seq<Event>): nat {
    if es == [] then 0 else Opened(es[..|es| - 1]) + (if es[|es| - 1].Open? then 1 else 0)
  }

  lemma {:induction false} OpensAreCounted(c: Config, es: seq<Event>, n: nat)
    requires Valid(c, Init(c), es) && n <= |es| && Trace(c, Init(c), es)[n].settled.None?
    ensures Trace(c, Init(c), es)[n].net.opens == Opened(es[..n]) <= 8
  {
    if n == 0 {
    } else {
      var s := Trace(c, Init(c), es)[n - 1];
      TraceSteps(c, Init(c), es, n - 1);
      StepFollows(c, s, es[n - 1]);
      OpensAreCounted(c, es, n - 1);
      EndsExactlyBy(c, s, es[n - 1]);
      StepCountsOpens(c, s, es[n - 1]);
      assert es[..n][..n - 1] == es[..n - 1];
    }
  }

  lemma StepCountsOpens(c: Config, s: State, e: Event)
    requires Enabled(s, e) && s.settled.None?
    ensures Step(c, s, e).net.opens == s.net.opens + (if e.Open? then 1 else 0)
  {}

  /** Over any run: nine channels opened on a code and the handover is over, whatever they were for. */
  lemma NinthOpenBurns(c: Config, es: seq<Event>)
    requires Valid(c, Init(c), es) && Opened(es) > 8
    ensures Run(c, Init(c), es).settled.Some?
  {
    assert es[..|es|] == es;
    if Run(c, Init(c), es).settled.None? { OpensAreCounted(c, es, |es|); }
  }

  /**
   When a hello claims the code: open, readable, over a finished handshake, with the phone's proof, nobody claimed,
   and the code neither used nor expired. Then the peer, its nonce, its deadline and the reply are these.
   */
  lemma HelloClaimsIff(c: Config, es: seq<Event>, e: Event)
    requires Valid(c, Init(c), es) && Enabled(Run(c, Init(c), es), e) && e.Hello?
    ensures
      var s := Run(c, Init(c), es);
      var t, link := Step(c, s, e), s.net.links[e.socket];
      var proven := link.hash != [] && e.proof == Some(RemoteProof(c.secret, link.hash, PeerRole(link.role)));
      if s.settled.None? && e.readable && proven && s.peer.None? && s.clock < c.expiresAt then
        && t.reply == HelloOk(RemoteProof(c.secret, link.hash, link.role), NonceCommit(c.secret, link.hash, e.drawn))
        && t.peer == Some(Peer(e.socket, link, e.drawn, false)) && t.rec.usedAt == Some(s.clock)
        && t.deadline == s.clock + c.pinMs && t.net == s.net && t.pin == s.pin
      else
        && t.peer == s.peer && t.rec == s.rec && t.deadline == s.deadline && t.trail == s.trail && t.pin == s.pin
        && t.reply == Refuse(if s.settled.Some? then Cancelled
                             else if !e.readable then (if e.known then Version else Malformed)
                             else if !proven then Unauthorized
                             else if s.peer.Some? then Busy
                             else Expired)
        && t.net.chores == s.net.chores + (if s.settled.None? && e.readable && !proven then [Drop(e.socket)] else [])
  {
    RunInv(c, Init(c), es);
  }

  lemma UnclaimedKeepsDeadline(c: Config, s: State, e: Event)
    requires Inv(c, s) && Enabled(s, e) && Step(c, s, e).peer.None?
    ensures s.peer.None? && Step(c, s, e).deadline == s.deadline
  {}

  /** Until a phone has claimed the code the deadline is the code's own expiry, or a millisecond on if it has passed. */
  lemma {:induction false} CodeExpiresOnItsOwn(c: Config, es: seq<Event>, n: nat)
    requires Valid(c, Init(c), es) && n <= |es| && Trace(c, Init(c), es)[n].peer.None?
    ensures Trace(c, Init(c), es)[n].deadline == if c.start < c.expiresAt then c.expiresAt else c.start + 1
  {
    if n == 0 {
    } else {
      TraceSteps(c, Init(c), es, n - 1);
      TraceInv(c, es, n - 1);
      UnclaimedKeepsDeadline(c, Trace(c, Init(c), es)[n - 1], es[n - 1]);
      CodeExpiresOnItsOwn(c, es, n - 1);
    }
  }

  /** The nonce is revealed once, to the claimed peer, for a readable nonce of its own. */
  lemma NonceRevealedIff(c: Config, es: seq<Event>, k: nat, nonce: Option<Bytes>)
    requires Valid(c, Init(c), es) && Enabled(Run(c, Init(c), es), NonceMsg(k, nonce))
    ensures
      var s := Run(c, Init(c), es);
      var t := Step(c, s, NonceMsg(k, nonce));
      if s.settled.None? && FromPeer(s, k) && |s.trail| == 1 && nonce.Some? then
        && t.reply == Reveal(s.peer.value.nonceTv) && |t.trail| == 2 && t.peer.Some? && t.peer.value.sasShown
      else
        && t.trail == s.trail && t.peer == s.peer
        && t.reply == Refuse(if s.settled.Some? then Cancelled
                             else if !FromPeer(s, k) then Unauthorized
                             else if |s.trail| >= 2 then Used
                             else Malformed)
  {
    RunInv(c, Init(c), es);
  }

  /**
   The request for the digits is taken once, from the claimed peer, after the reveal; answered if they are
   there, else held.
   */
  lemma PinAskedIff(c: Config, es: seq<Event>, k: nat, readable: bool)
    requires Valid(c, Init(c), es) && Enabled(Run(c, Init(c), es), PinMsg(k, readable))
    ensures
      var s := Run(c, Init(c), es);
      var t := Step(c, s, PinMsg(k, readable));
      if FromPeer(s, k) && |s.trail| >= 2 && readable && !s.pin.asked then
        && t.pin.asked
        && (if s.pin.pending.None? then t.pin.waiting && t.reply == Silence && t.trail == s.trail
            else if s.settled.Some? then t.reply == Refuse(Cancelled) && t.trail == s.trail
            else
              && t.reply ==
                PinOk(PinProof(c.secret, s.peer.value.link.hash, s.peer.value.link.role, s.pin.pending.value))
              && t.pin.sent && t.deadline == s.clock + c.payloadMs && |t.trail| == |s.trail| + 1)
      else
        && t.trail == s.trail && t.pin == s.pin
        && t.reply == Refuse(if !FromPeer(s, k) || |s.trail| < 2 then Unauthorized
                             else if !readable then Malformed
                             else Used)
  {
    RunInv(c, Init(c), es);
  }

  /** A held request is answered with the digits once they come, and refused if the handover is over first. */
  lemma HeldRequestIsAnswered(c: Config, es: seq<Event>)
    requires Valid(c, Init(c), es) && Enabled(Run(c, Init(c), es), PinResume)
    ensures
      var s := Run(c, Init(c), es);
      var t := Step(c, s, PinResume);
      && t.pin.answer.None?
      && (if s.settled.None? && s.pin.answer.value.Some? then
            && s.peer.Some?
            && t.reply ==
              PinOk(PinProof(c.secret, s.peer.value.link.hash, s.peer.value.link.role, s.pin.answer.value.value))
            && t.pin.sent && t.deadline == s.clock + c.payloadMs && |t.trail| == 3
          else t.reply == Refuse(Cancelled) && t.trail == s.trail)
  {
    RunInv(c, Init(c), es);
  }

  // ---- the viewer's digits ---------------------------------------------------------------------

  predicate Typed(es: seq<Event>, n: nat, digits: string)
    requires n <= |es|
  {
    exists k :: 0 <= k < n && es[k] == SubmitPin(digits)
  }

  /** Whatever digits the television holds, answers with or has proved, the viewer typed. */
  predicate HoldsTyped(es: seq<Event>, n: nat, s: State)
    requires n <= |es|
  {
    && (s.pin.pending.Some? ==> Typed(es, n, s.pin.pending.value))
    && (s.pin.answer.Some? && s.pin.answer.value.Some? ==> Typed(es, n, s.pin.answer.value.value))
    && (forall i :: 0 <= i < |s.trail| && s.trail[i].PinProved? ==> Typed(es, n, s.trail[i].digits))
  }

  lemma TypedOn(es: seq<Event>, n: nat, digits: string)
    requires n < |es|
    ensures Typed(es, n + 1, digits) <==> Typed(es, n, digits) || es[n] == SubmitPin(digits)
  {
    if Typed(es, n, digits) {
      var k :| 0 <= k < n && es[k] == SubmitPin(digits);
      assert es[k] == SubmitPin(digits);
    }
  }

  lemma StepHoldsTyped(c: Config, s: State, e: Event, digits: string)
    requires Enabled(s, e)
    ensures
      var t := Step(c, s, e);
      && (t.pin.pending == Some(digits) ==> s.pin.pending == Some(digits) || e == SubmitPin(digits))
      && (t.pin.answer == Some(Some(digits)) ==> s.pin.answer == Some(Some(digits)) || e == SubmitPin(digits))
      && (|t.trail| > |s.trail| && t.trail[|s.trail|].PinProved? && t.trail[|s.trail|].digits == digits ==>
            s.pin.pending == Some(digits) || s.pin.answer == Some(Some(digits)))
  {}

  lemma {:induction false} DigitsWereTyped(c: Config, es: seq<Event>, n: nat)
    requires Valid(c, Init(c), es) && n <= |es|
    ensures HoldsTyped(es, n, Trace(c, Init(c), es)[n])
  {
    if n == 0 {
    } else {
      var s, t := Trace(c, Init(c), es)[n - 1], Trace(c, Init(c), es)[n];
      TraceSteps(c, Init(c), es, n - 1);
      TraceInv(c, es, n - 1);
      DigitsWereTyped(c, es, n - 1);
      TypedStays(c, s, es, n - 1);
    }
  }

  lemma TypedStays(c: Config, s: State, es: seq<Event>, n: nat)
    requires n < |es| && Inv(c, s) && Enabled(s, es[n]) && HoldsTyped(es, n, s)
    ensures HoldsTyped(es, n + 1, Step(c, s, es[n]))
  {
    var t := Step(c, s, es[n]);
    if t.pin.pending.Some? {
      StepHoldsTyped(c, s, es[n], t.pin.pending.value);
      TypedOn(es, n, t.pin.pending.value);
    }
    if t.pin.answer.Some? && t.pin.answer.value.Some? {
      StepHoldsTyped(c, s, es[n], t.pin.answer.value.value);
      TypedOn(es, n, t.pin.answer.value.value);
    }
    forall i | 0 <= i < |t.trail| && t.trail[i].PinProved? ensures Typed(es, n + 1, t.trail[i].digits) {
      ProvedWereTyped(c, s, es, n, i);
    }
  }

  lemma ProvedWereTyped(c: Config, s: State, es: seq<Event>, n: nat, i: nat)
    requires n < |es| && Inv(c, s) && Enabled(s, es[n]) && HoldsTyped(es, n, s)
    requires i < |Step(c, s, es[n]).trail| && Step(c, s, es[n]).trail[i].PinProved?
    ensures Typed(es, n + 1, Step(c, s, es[n]).trail[i].digits)
  {
    var t := Step(c, s, es[n]);
    StepAppends(c, s, es[n]);
    TypedOn(es, n, t.trail[i].digits);
    if i < |s.trail| {
      assert t.trail[i] == s.trail[i];
    } else {
      StepHoldsTyped(c, s, es[n], t.trail[i].digits);
    }
  }

  lemma {:induction false} TraceInv(c: Config, es: seq<Event>, n: nat)
    requires Valid(c, Init(c), es) && n <= |es|
    ensures Inv(c, Trace(c, Init(c), es)[n])
  {
    if n == 0 {
    } else {
      TraceInv(c, es, n - 1);
      TraceSteps(c, Init(c), es, n - 1);
      StepInv(c, Trace(c, Init(c), es)[n - 1], es[n - 1]);
    }
  }

  /**
   Digits are taken when they are four digits, somebody is linked, and no proof has been sent; and then they
   are used.
   */
  lemma SubmitIsTaken(c: Config, s: State, digits: string)
    ensures
      var t := Step(c, s, SubmitPin(digits));
      if s.settled.None? && !s.pin.sent && IsPin(digits) && s.peer.Some? then
        (if s.pin.waiting then !t.pin.waiting && t.pin.answer == Some(Some(digits)) else t.pin.pending == Some(digits))
        && t.trail == s.trail && t.settled == s.settled
      else t == s
  {}

  // ---- what is put off comes ---------------------------------------------------------------------

  /** The claimed phone's goodbye is put off as the failure it names; anyone else's is only acknowledged. */
  lemma AbortIsHeard(c: Config, s: State, k: nat, reason: Option<Reason>)
    requires Enabled(s, AbortMsg(k, reason))
    ensures
      var t := Step(c, s, AbortMsg(k, reason));
      && t.reply == Ack && t.trail == s.trail && t.settled == s.settled && t.pin == s.pin
      && t.net.chores ==
         s.net.chores + (if FromPeer(s, k) then [Fail(if reason.Some? then reason.value else Cancelled)] else [])
  {}

  function Ticks(n: nat): seq<Event> { seq(n, _ => ChoreFires) }

  function FirstEnd(chores: seq<Chore>): Option<Outcome> {
    if chores == [] then None
    else
      match chores[0]
      case Finish(p) => Some(Resolved(p))
      case Fail(r) => Some(Rejected(r))
      case Drop(_) => FirstEnd(chores[1..])
  }

  /** When the timers have run what was put off, an open handover has ended as the first end that was put off. */
  lemma {:induction false} PutOffIsDone(c: Config, s: State)
    ensures Valid(c, s, Ticks(|s.net.chores|))
    ensures
      var t := Run(c, s, Ticks(|s.net.chores|));
      t.net.chores == [] && t.settled == if s.settled.Some? then s.settled else FirstEnd(s.net.chores)
    decreases |s.net.chores|
  {
    var evs := Ticks(|s.net.chores|);
    if s.net.chores == [] {
    } else {
      assert evs[1..] == Ticks(|s.net.chores| - 1);
      PutOffIsDone(c, Step(c, s, ChoreFires));
    }
  }

  // ---- the handover on its own variables ------------------------------------------------------

  /** `receiveSignIn`'s closure: each responder, listener and timer, and the two calls a host makes. */
  class Receiver {
    const config: Config
    var settled: Option<Outcome>
    var rec: Record
    var peer: Option<Peer>
    var pinAsked: bool
    var pinSent: bool
    var submitted: bool
    var answer: Option<Option<string>>
    var pending: Option<string>
    var deadline: nat
    var links: map<nat, Link>
    var rpcs: set<nat>
    var accepted: nat
    var signinConns: nat
    var chores: seq<Chore>
    var clock: nat
    var reply: Reply
    var trail: seq<Milestone>

    ghost function View(): State
      reads this
    {
      State(settled, rec, peer, PinState(pinAsked, pinSent, submitted, answer, pending), deadline,
            Net(links, rpcs, accepted, signinConns, chores), clock, reply, trail)
    }

    constructor (c: Config)
      ensures config == c && View() == Init(c)
    {
      config := c;
      settled, rec, peer := None, Record(c.expiresAt, None), None;
      pinAsked, pinSent, submitted, answer, pending := false, false, false, None, None;
      deadline := if c.expiresAt > c.start then c.expiresAt else c.start + 1;
      links, rpcs, accepted, signinConns, chores := map[], {}, 0, 0, [];
      clock, reply, trail := c.start, Silence, [];
    }

    method Finish(o: Outcome)
      modifies this`settled, this`rec, this`submitted, this`answer, this`rpcs
      ensures View() == FinishWith(old(View()), o)
    {
      if settled.Some? { return; }
      settled := Some(o);
      if rec.usedAt.None? { rec := rec.(usedAt := Some(clock)); }
      if submitted {
        submitted := false;
        answer := Some(None);
      }
      rpcs := {};
    }

    method TakeCode() returns (refused: Option<Reason>)
      modifies this`rec
      ensures (refused, rec) == Claim(old(View()))
    {
      if peer.Some? { return Some(Busy); }
      var next := ConsumeSigninCode(rec, clock);
      if next.None? {
        return Some(if SigninCodeState(rec, clock) == ExpiredCode then Expired else Used);
      }
      rec := next.value;
      return None;
    }

    method Connection(link: Link)
      requires Enabled(View(), Connect(link))
      modifies this
      ensures View() == Step(config, old(View()), Connect(link))
    {
      if settled.Some? { return; }
      links := links[accepted := link];
      rpcs := rpcs + {accepted};
      accepted := accepted + 1;
    }

    method ChannelOpens(socket: nat)
      requires Enabled(View(), Open(socket))
      modifies this
      ensures View() == Step(config, old(View()), Open(socket))
    {
      if settled.Some? { return; }
      signinConns := signinConns + 1;
      if signinConns > MAX_SIGNIN_CONNECTIONS { Finish(Rejected(Flooded)); }
    }

    method SocketCloses(socket: nat)
      requires Enabled(View(), SocketClose(socket))
      modifies this
      ensures View() == Step(config, old(View()), SocketClose(socket))
    {
      rpcs := rpcs - {socket};
      if peer.Some? && peer.value.socket == socket { Finish(Rejected(Timeout)); }
    }

    /** Latch the peer, commit to a nonce and re-arm, in the same synchronous block that spent the code. */
    method CommitTo(socket: nat, link: Link, proof: Mac, drawn: Bytes)
      modifies this`peer, this`deadline, this`trail, this`reply
      ensures View() == Commit(config, old(View()), socket, link, proof, old(rec), drawn)
    {
      peer := Some(Peer(socket, link, drawn, false));
      deadline := clock + config.pinMs;
      trail := trail + [Linked(socket, link, proof, clock, drawn)];
      reply := HelloOk(RemoteProof(config.secret, link.hash, link.role), NonceCommit(config.secret, link.hash, drawn));
    }

    method SigninHello(socket: nat, readable: bool, known: bool, proof: Option<Mac>, drawn: Bytes)
      requires Enabled(View(), Hello(socket, readable, known, proof, drawn))
      modifies this
      ensures View() == Step(config, old(View()), Hello(socket, readable, known, proof, drawn))
    {
      if settled.Some? {
        reply := Refuse(Cancelled);
        return;
      }
      if !readable {
        reply := Refuse(if known then Version else Malformed);
        return;
      }
      var link := links[socket];
      if link.hash == [] || proof != Some(RemoteProof(config.secret, link.hash, PeerRole(link.role))) {
        chores := chores + [Drop(socket)];
        reply := Refuse(Unauthorized);
        return;
      }
      var refused := TakeCode();
      if refused.Some? {
        reply := Refuse(refused.value);
        return;
      }
      CommitTo(socket, link, proof.value, drawn);
    }

    method SigninNonce(socket: nat, nonce: Option<Bytes>)
      requires Enabled(View(), NonceMsg(socket, nonce))
      modifies this
      ensures View() == Step(config, old(View()), NonceMsg(socket, nonce))
    {
      if settled.Some? {
        reply := Refuse(Cancelled);
      } else if peer.None? || peer.value.socket != socket {
        reply := Refuse(Unauthorized);
      } else if peer.value.sasShown {
        reply := Refuse(Used);
      } else if nonce.None? {
        reply := Refuse(Malformed);
      } else {
        var p := peer.value;
        peer := Some(p.(sasShown := true));
        var sas := SasDigits(config.secret, p.link, p.nonceTv, nonce.value);
        trail := trail + [Shown(socket, sas, p.nonceTv, nonce.value)];
        reply := Reveal(p.nonceTv);
      }
    }

    method SendPinProof(digits: Option<string>)
      modifies this`submitted, this`pinSent, this`deadline, this`trail, this`reply
      ensures View() == AnswerPin(config, old(View()), digits)
    {
      submitted := false;
      if settled.Some? || digits.None? || peer.None? {
        reply := Refuse(Cancelled);
      } else {
        var p := peer.value;
        pinSent := true;
        deadline := clock + config.payloadMs;
        trail := trail + [PinProved(p.socket, digits.value)];
        reply := PinOk(PinProof(config.secret, p.link.hash, p.link.role, digits.value));
      }
    }

    method SigninPin(socket: nat, readable: bool)
      requires Enabled(View(), PinMsg(socket, readable))
      modifies this
      ensures View() == Step(config, old(View()), PinMsg(socket, readable))
    {
      if peer.None? || peer.value.socket != socket || !peer.value.sasShown {
        reply := Refuse(Unauthorized);
      } else if !readable {
        reply := Refuse(Malformed);
      } else if pinAsked {
        reply := Refuse(Used);
      } else {
        pinAsked := true;
        if pending.Some? {
          SendPinProof(pending);
        } else {
          submitted := true;
          reply := Silence;
        }
      }
    }

    method ResumePin()
      requires Enabled(View(), PinResume)
      modifies this
      ensures View() == Step(config, old(View()), PinResume)
    {
      var digits := answer.value;
      answer := None;
      SendPinProof(digits);
    }

    method SigninPayload(socket: nat, payload: Option<Payload>)
      requires Enabled(View(), PayloadMsg(socket, payload))
      modifies this
      ensures View() == Step(config, old(View()), PayloadMsg(socket, payload))
    {
      if settled.Some? {
        reply := Refuse(Cancelled);
      } else if peer.None? || peer.value.socket != socket || !pinSent {
        reply := Refuse(Unauthorized);
      } else if payload.None? || NormalizePayload(payload.value).None? {
        reply := Refuse(Malformed);
      } else {
        var p := NormalizePayload(payload.value).value;
        trail := trail + [Received(socket, p)];
        chores := chores + [Chore.Finish(p)];
        reply := Ack;
      }
    }

    method SigninAbort(socket: nat, reason: Option<Reason>)
      requires Enabled(View(), AbortMsg(socket, reason))
      modifies this
      ensures View() == Step(config, old(View()), AbortMsg(socket, reason))
    {
      if peer.Some? && peer.value.socket == socket {
        chores := chores + [Fail(if reason.Some? then reason.value else Cancelled)];
      }
      reply := Ack;
    }

    /** True means the digits were taken, not that they are locked in: until asked, later digits replace them. */
    method EnterPin(digits: string) returns (taken: bool)
      modifies this
      ensures View() == Step(config, old(View()), SubmitPin(digits)) && taken == Accepts(old(View()), digits)
    {
      if settled.Some? || pinSent || !IsPin(digits) || peer.None? { return false; }
      if submitted {
        submitted := false;
        answer := Some(Some(digits));
      } else {
        pending := Some(digits);
      }
      return true;
    }

    method GiveUp()
      modifies this
      ensures View() == Step(config, old(View()), Cancel)
    {
      Finish(Rejected(Cancelled));
    }

    method DeadlineExpires()
      requires Enabled(View(), DeadlineFires)
      modifies this
      ensures View() == Step(config, old(View()), DeadlineFires)
    {
      Finish(Rejected(if peer.Some? then Timeout else Expired));
    }

    method RunNextChore()
      requires Enabled(View(), ChoreFires)
      modifies this
      ensures View() == Step(config, old(View()), ChoreFires)
    {
      var chore := chores[0];
      chores := chores[1..];
      match chore
      case Finish(p) => Finish(Resolved(p));
      case Fail(r) => Finish(Rejected(r));
      case Drop(k) => rpcs := rpcs - {k};
    }
  }
}
