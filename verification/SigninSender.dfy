/**
 The sending role of the sign-in handover (sdk/signin-pair.js, sendSignIn): the phone that holds the account.

 Any number of attempts run at once, one per socket that answered on the public topic; each is suspended
 at one of its awaits. Replies, silences, the viewer's answer, cancels, hangups and timers interleave
 freely; a request that times out is a silence that comes no later than its bound.
 */
module SigninSender {
  import opened Wrappers
  import opened SigninWire

  const RPC_MS := 15000
  const ABORT_MS := 3000

  datatype Config = Config(secret: Bytes, payload: Payload, start: nat, timeoutMs: nat, matchMs: nat, pinMs: nat,
                           payloadMs: nat)

  /** Where an attempt is suspended, and until when. */
  datatype Phase =
    | Handshaking
    | Greeting
    | Revealing(until: nat)
    | Comparing(until: nat)
    | Answered(agreed: Option<bool>)     // the comparison was answered (None: nobody did), not yet resumed
    | AskingPin(until: nat)
    | Paying(until: nat)
    | Parting(until: nat, reason: Reason)  // saying why, before failing
    | Over

  datatype Attempt = Attempt(link: Link, phase: Phase)

  /** The progress of the one latched attempt, with the evidence each step rests on. */
  datatype Milestone =
    | Latched(socket: nat, link: Link, proof: Mac, commit: Mac, mine: Bytes)
    | Compared(socket: nat, theirs: Bytes, sas: Mac)
    | Agreed(socket: nat, pin: string)
    | Paid(socket: nat, proof: Mac, payload: Payload)

  datatype Result = Sent(username: string) | Failed(reason: Reason)

  datatype State = State(
    settled: Option<Result>,
    chosen: Option<nat>,
    refusal: Option<Reason>,
    opens: nat,
    attempts: map<nat, Attempt>,
    accepted: nat,
    matchPending: bool,
    confirmed: bool,      // the viewer has answered that the digits agree
    clock: nat,
    trail: seq<Milestone>)

  datatype HelloAnswer =
    | NoHello(otherVersion: bool) | HelloError(reason: Reason) | HelloBody(proof: Option<Mac>, commit: Option<Mac>)
  datatype NonceAnswer = NoNonce | NonceError | NonceBody(nonce: Option<Bytes>)
  datatype PinAnswer = NoPin | PinError(reason: Reason) | PinBody(proof: Option<Mac>)
  datatype PayAnswer = NoAck | AckError | AckOk

  datatype Event =
    | Connect | HandshakeDone(socket: nat, link: Link) | HandshakeLost(socket: nat)
    | Open(socket: nat) | SocketClose(socket: nat)
    | HelloReply(socket: nat, hello: HelloAnswer, drawn: Bytes)
    | NonceReply(socket: nat, nonce: NonceAnswer)
    | ConfirmMatch(ok: bool) | CompareTimeout(socket: nat)
    | Resume(socket: nat, pin: string)
    | PinReply(socket: nat, answer: PinAnswer)
    | PayReply(socket: nat, ack: PayAnswer)
    | AbortDone(socket: nat)
    | LinkTimer | Cancel | Wait(until: nat)

  function Init(c: Config): State {
    State(None, None, None, 0, map[], 0, false, false, c.start, [])
  }

  function PhaseOf(s: State, k: nat): Phase {
    if k in s.attempts then s.attempts[k].phase else Over
  }

  /** How long the handover may still wait where it is suspended. */
  function Limit(c: Config, s: State): nat {
    if s.chosen.None? then c.start + c.timeoutMs
    else
      match PhaseOf(s, s.chosen.value)
      case Revealing(t) => t
      case Comparing(t) => t
      case AskingPin(t) => t
      case Paying(t) => t
      case Parting(t, _) => t
      case _ => s.clock
  }

  predicate Enabled(c: Config, s: State, e: Event) {
    match e
    case Connect => true
    case HandshakeDone(k, link) => PhaseOf(s, k).Handshaking? && IsHash(link.hash)
    case HandshakeLost(k) => PhaseOf(s, k).Handshaking?
    case Open(k) => k in s.attempts
    case SocketClose(k) => k < s.accepted
    case HelloReply(k, _, drawn) => PhaseOf(s, k).Greeting? && IsNonce(drawn)
    case NonceReply(k, n) => PhaseOf(s, k).Revealing? && (n.NonceBody? && n.nonce.Some? ==> IsNonce(n.nonce.value))
    case ConfirmMatch(_) => true
    case CompareTimeout(k) => PhaseOf(s, k).Comparing? && s.clock >= PhaseOf(s, k).until
    case Resume(k, pin) => PhaseOf(s, k).Answered? && IsPin(pin)
    case PinReply(k, _) => PhaseOf(s, k).AskingPin?
    case PayReply(k, _) => PhaseOf(s, k).Paying?
    case AbortDone(k) => PhaseOf(s, k).Parting?
    case LinkTimer => s.settled.None? && s.chosen.None? && s.clock >= c.start + c.timeoutMs
    case Cancel => true
    case Wait(t) => t >= s.clock && (s.settled.None? ==> t <= Limit(c, s))
  }

  // ---- what each step does --------------------------------------------------------------------

  function Move(s: State, k: nat, phase: Phase): State {
    if k in s.attempts then s.(attempts := s.attempts[k := s.attempts[k].(phase := phase)]) else s
  }

  /** The pending comparison is answered: the attempt that waits for it can resume. */
  function AnswerMatch(s: State, agreed: Option<bool>): State {
    if !s.matchPending || s.chosen.None? then s
    else Move(s.(matchPending := false), s.chosen.value, Answered(agreed))
  }

  function FinishWith(s: State, r: Result): State {
    if s.settled.Some? then s else AnswerMatch(s.(settled := Some(r)), None)
  }

  function FailWith(s: State, r: Reason): State { FinishWith(s, Failed(r)) }

  function Part(s: State, k: nat, r: Reason): State { Move(s, k, Parting(s.clock + ABORT_MS, r)) }

  function OnOpen(s: State): State {
    if s.settled.Some? || s.chosen.Some? then s
    else
      var t := s.(opens := s.opens + 1);
      if t.opens > MAX_SIGNIN_CONNECTIONS then FailWith(t, Flooded) else t
  }

  /** The single-release latch: no await between the test and the set. */
  function Latch(c: Config, s: State, k: nat, link: Link, proof: Mac, commit: Mac, drawn: Bytes): State {
    if s.chosen.Some? || s.settled.Some? then Move(s, k, Over)
    else
      var t := s.(chosen := Some(k), trail := s.trail + [Latched(k, link, proof, commit, drawn)]);
      Move(t, k, Revealing(s.clock + RPC_MS))
  }

  function OnHello(c: Config, s: State, k: nat, hello: HelloAnswer, drawn: Bytes): State
    requires k in s.attempts
  {
    match hello
    case NoHello(other) =>
      Move(s.(refusal := if other && s.refusal.None? then Some(Version) else s.refusal), k, Over)
    case HelloError(r) =>
      Move(s.(refusal := if r.Used? || r.Expired? || r.Busy? then Some(r) else s.refusal), k, Over)
    case HelloBody(proof, commit) =>
      var link := s.attempts[k].link;
      if proof.None? || commit.None? || proof.value != RemoteProof(c.secret, link.hash, PeerRole(link.role))
      then Move(s, k, Over)
      else Latch(c, s, k, link, proof.value, commit.value, drawn)
  }

  function OnNonce(c: Config, s: State, k: nat, n: NonceAnswer): State {
    if s.settled.Some? then Move(s, k, Over)
    else
      match n
      case NoNonce => Part(s, k, Timeout)
      case NonceError => Part(s, k, Refused)
      case NonceBody(theirs) =>
        if theirs.None? then Part(s, k, Refused)
        else if s.trail == [] || !s.trail[0].Latched? then s
        else
          var l := s.trail[0];
          if NonceCommit(c.secret, l.link.hash, theirs.value) != l.commit then Part(s, k, Mismatch)
          else
            var sas := SasDigits(c.secret, l.link, l.mine, theirs.value);
            Move(s.(matchPending := true, trail := s.trail + [Compared(k, theirs.value, sas)]), k,
                 Comparing(s.clock + c.matchMs))
  }

  function OnConfirm(s: State, ok: bool): State {
    if s.settled.Some? || !s.matchPending then s
    else AnswerMatch(s.(confirmed := ok), Some(ok))
  }

  /** After the comparison: only an explicit yes goes on to the digits, drawn once. */
  function OnAgreed(c: Config, s: State, k: nat, agreed: Option<bool>, pin: string): State {
    if s.settled.Some? then Move(s, k, Over)
    else if agreed != Some(true) then Part(s, k, if agreed == Some(false) then Mismatch else Timeout)
    else Move(s.(trail := s.trail + [Agreed(k, pin)]), k, AskingPin(s.clock + c.pinMs))
  }

  function OnPin(c: Config, s: State, k: nat, answer: PinAnswer): State {
    if s.settled.Some? then Move(s, k, Over)
    else
      match answer
      case NoPin => Part(s, k, Timeout)
      case PinError(r) => Part(s, k, if r.Cancelled? then Cancelled else Refused)
      case PinBody(proof) =>
        if |s.trail| < 3 || !s.trail[0].Latched? || !s.trail[2].Agreed? then s
        else
          var link, pin := s.trail[0].link, s.trail[2].pin;
          if proof != Some(PinProof(c.secret, link.hash, PeerRole(link.role), pin)) then Part(s, k, PinWrong)
          else Move(s.(trail := s.trail + [Paid(k, proof.value, c.payload)]), k, Paying(s.clock + c.payloadMs))
  }

  function OnAck(c: Config, s: State, k: nat, ack: PayAnswer): State {
    Move(FinishWith(s, match ack
                       case NoAck => Failed(Timeout)
                       case AckError => Failed(Refused)
                       case AckOk => Sent(c.payload.username)), k, Over)
  }

  /** Events of the search, before any peer is latched; the others belong to the exchange with the latched one. */
  predicate Searching(e: Event) {
    e.Connect? || e.HandshakeDone? || e.HandshakeLost? || e.Open? || e.HelloReply? || e.LinkTimer?
  }

  function SearchStep(c: Config, s: State, e: Event): State
    requires Enabled(c, s, e) && Searching(e)
  {
    match e
    case Connect =>
      if s.chosen.Some? || s.settled.Some? then s
      else s.(attempts := s.attempts[s.accepted := Attempt(Link([], Initiator), Handshaking)],
              accepted := s.accepted + 1)
    case HandshakeDone(k, link) =>
      if s.chosen.Some? || s.settled.Some? then Move(s, k, Over)
      else s.(attempts := s.attempts[k := Attempt(link, Greeting)])
    case HandshakeLost(k) => Move(s, k, Over)
    case Open(_) => OnOpen(s)
    case HelloReply(k, hello, drawn) => OnHello(c, s, k, hello, drawn)
    case LinkTimer => FailWith(s, if s.refusal.Some? then s.refusal.value else Timeout)
  }

  /** A request of the latched attempt comes back, or its silence does. */
  predicate Replying(e: Event) { e.NonceReply? || e.PinReply? || e.PayReply? }

  function ReplyStep(c: Config, s: State, e: Event): State
    requires Enabled(c, s, e) && Replying(e)
  {
    match e
    case NonceReply(k, n) => OnNonce(c, s, k, n)
    case PinReply(k, answer) => OnPin(c, s, k, answer)
    case PayReply(k, ack) => OnAck(c, s, k, ack)
  }

  function TurnStep(c: Config, s: State, e: Event): State
    requires Enabled(c, s, e) && !Searching(e) && !Replying(e)
  {
    match e
    case SocketClose(k) => if s.chosen == Some(k) then FailWith(s, Timeout) else s
    case ConfirmMatch(ok) => OnConfirm(s, ok)
    case CompareTimeout(k) => AnswerMatch(s, None)
    case Resume(k, pin) => OnAgreed(c, s, k, PhaseOf(s, k).agreed, pin)
    case AbortDone(k) => Move(FailWith(s, PhaseOf(s, k).reason), k, Over)
    case Cancel => FailWith(s, Cancelled)
    case Wait(t) => s.(clock := t)
  }

  function Step(c: Config, s: State, e: Event): State
    requires Enabled(c, s, e)
  {
    if Searching(e) then SearchStep(c, s, e)
    else if Replying(e) then ReplyStep(c, s, e)
    else TurnStep(c, s, e)
  }

  // ---- what every step keeps ------------------------------------------------------------------

  predicate Past(p: Phase) { !p.Handshaking? && !p.Greeting? && !p.Over? }

  predicate PhaseFits(p: Phase, milestones: nat) {
    match p
    case Revealing(_) => milestones == 1
    case Comparing(_) => milestones == 2
    case Answered(_) => milestones == 2
    case AskingPin(_) => milestones == 3
    case Paying(_) => milestones == 4
    case _ => true
  }

  predicate AttemptOk(s: State, k: nat) {
    k in s.attempts ==>
      k < s.accepted && (Past(s.attempts[k].phase) ==> s.chosen == Some(k)) && PhaseFits(s.attempts[k].phase, |s.trail|)
  }

  predicate ChosenOk(s: State) {
    && (s.chosen.Some? ==> s.chosen.value in s.attempts && !PhaseOf(s, s.chosen.value).Handshaking?
                           && !PhaseOf(s, s.chosen.value).Greeting?)
    && (s.matchPending ==> s.settled.None? && s.chosen.Some? && PhaseOf(s, s.chosen.value).Comparing?)
    && (s.settled.None? && s.chosen.Some? ==>
          !PhaseOf(s, s.chosen.value).Over? && (PhaseOf(s, s.chosen.value).Comparing? ==> s.matchPending))
    && (s.chosen.Some? && PhaseOf(s, s.chosen.value) == Answered(Some(true)) ==> s.confirmed)
  }

  /** At most one attempt is past the latch; it is the chosen one, and its phase tells how far the trail is. */
  predicate AttemptsOk(s: State) {
    (forall k :: k in s.attempts ==> AttemptOk(s, k)) && ChosenOk(s)
  }

  /** The i-th milestone is of the i-th kind, and rests on the evidence the ones before it hold. */
  predicate InOrder(c: Config, trail: seq<Milestone>, i: nat)
    requires i < |trail|
  {
    match trail[i]
    case Latched(_, link, proof, _, mine) =>
      i == 0 && proof == RemoteProof(c.secret, link.hash, PeerRole(link.role)) && IsNonce(mine)
    case Compared(_, theirs, sas) =>
      i == 1 && trail[0].Latched? && IsNonce(theirs)
      && trail[0].commit == NonceCommit(c.secret, trail[0].link.hash, theirs)
      && sas == SasDigits(c.secret, trail[0].link, trail[0].mine, theirs)
    case Agreed(_, pin) => i == 2 && IsPin(pin)
    case Paid(_, proof, payload) =>
      i == 3 && trail[0].Latched? && trail[2].Agreed? && payload == c.payload
      && proof == PinProof(c.secret, trail[0].link.hash, PeerRole(trail[0].link.role), trail[2].pin)
  }

  predicate TrailOk(c: Config, s: State) {
    && (forall i :: 0 <= i < |s.trail| ==> InOrder(c, s.trail, i) && s.chosen == Some(s.trail[i].socket))
    && (s.trail != [] <==> s.chosen.Some?)
    && (|s.trail| >= 3 ==> s.confirmed)
  }

  function Bound(c: Config, p: Phase): nat {
    var linked := c.start + c.timeoutMs;
    var compared := linked + RPC_MS + c.matchMs;
    match p
    case Revealing(_) => linked + RPC_MS
    case Comparing(_) => compared
    case Answered(_) => compared
    case AskingPin(_) => compared + c.pinMs
    case Paying(_) => compared + c.pinMs + c.payloadMs
    case Parting(_, _) => compared + c.pinMs + ABORT_MS
    case _ => linked
  }

  /** After the digits the phone either waits for its payload to be taken or says goodbye, never both. */
  function LastMoment(c: Config): nat {
    c.start + c.timeoutMs + RPC_MS + c.matchMs + c.pinMs + if c.payloadMs > ABORT_MS then c.payloadMs else ABORT_MS
  }

  predicate TimeOk(c: Config, s: State) {
    s.settled.None? ==>
      && s.clock <= Limit(c, s)
      && Limit(c, s) <= if s.chosen.Some? then Bound(c, PhaseOf(s, s.chosen.value)) else c.start + c.timeoutMs
  }

  predicate Inv(c: Config, s: State) {
    AttemptsOk(s) && TrailOk(c, s) && TimeOk(c, s)
  }

  /** A step adds at most one milestone, with its evidence, on the chosen socket, and never once settled. */
  predicate Appends(c: Config, s: State, t: State) {
    && s.trail <= t.trail && |t.trail| <= |s.trail| + 1
    && (s.chosen.Some? ==> t.chosen == s.chosen)
    && (s.settled.Some? ==> t.settled == s.settled && t.trail == s.trail)
    && (t.chosen != s.chosen ==> |t.trail| > |s.trail|)
    && (|t.trail| > |s.trail| ==>
          InOrder(c, t.trail, |s.trail|) && t.chosen == Some(t.trail[|s.trail|].socket)
            && (|t.trail| >= 3 ==> t.confirmed))
    && (|s.trail| >= 3 && s.confirmed ==> t.confirmed)
  }

  lemma HelloAttemptOk(c: Config, s: State, e: Event, k: nat)
    requires AttemptsOk(s) && TrailOk(c, s) && Enabled(c, s, e) && e.HelloReply?
    ensures AttemptOk(Step(c, s, e), k)
  {
    assert AttemptOk(s, k);
  }

  lemma SearchAttemptOk(c: Config, s: State, e: Event, k: nat)
    requires AttemptsOk(s) && TrailOk(c, s) && Enabled(c, s, e) && Searching(e)
    ensures AttemptOk(Step(c, s, e), k)
  {
    assert AttemptOk(s, k);
    if e.HelloReply? { HelloAttemptOk(c, s, e, k); }
  }

  lemma NonceAttemptOk(c: Config, s: State, e: Event, k: nat)
    requires AttemptsOk(s) && TrailOk(c, s) && Enabled(c, s, e) && e.NonceReply?
    ensures AttemptOk(Step(c, s, e), k)
  {
    assert AttemptOk(s, k) && AttemptOk(s, e.socket);
  }

  lemma PinAttemptOk(c: Config, s: State, e: Event, k: nat)
    requires AttemptsOk(s) && TrailOk(c, s) && Enabled(c, s, e) && e.PinReply?
    ensures AttemptOk(Step(c, s, e), k)
  {
    assert AttemptOk(s, k) && AttemptOk(s, e.socket);
  }

  lemma AckAttemptOk(c: Config, s: State, e: Event, k: nat)
    requires AttemptsOk(s) && TrailOk(c, s) && Enabled(c, s, e) && e.PayReply?
    ensures AttemptOk(Step(c, s, e), k)
  {
    assert AttemptOk(s, k) && AttemptOk(s, e.socket);
  }

  lemma ReplyAttemptOk(c: Config, s: State, e: Event, k: nat)
    requires AttemptsOk(s) && TrailOk(c, s) && Enabled(c, s, e) && Replying(e)
    ensures AttemptOk(Step(c, s, e), k)
  {
    match e
    case NonceReply(_, _) => NonceAttemptOk(c, s, e, k);
    case PinReply(_, _) => PinAttemptOk(c, s, e, k);
    case PayReply(_, _) => AckAttemptOk(c, s, e, k);
  }

  lemma TurnAttemptOk(c: Config, s: State, e: Event, k: nat)
    requires AttemptsOk(s) && TrailOk(c, s) && Enabled(c, s, e) && !Searching(e) && !Replying(e)
    ensures AttemptOk(Step(c, s, e), k)
  {
    assert AttemptOk(s, k);
  }

  lemma SearchChosenOk(c: Config, s: State, e: Event)
    requires AttemptsOk(s) && TrailOk(c, s) && Enabled(c, s, e) && Searching(e)
    ensures ChosenOk(Step(c, s, e))
  {}

  lemma ReplyChosenOk(c: Config, s: State, e: Event)
    requires AttemptsOk(s) && TrailOk(c, s) && Enabled(c, s, e) && Replying(e)
    ensures ChosenOk(Step(c, s, e))
  {}

  lemma TurnChosenOk(c: Config, s: State, e: Event)
    requires AttemptsOk(s) && TrailOk(c, s) && Enabled(c, s, e) && !Searching(e) && !Replying(e)
    ensures ChosenOk(Step(c, s, e))
  {}

  lemma SearchAppends(c: Config, s: State, e: Event)
    requires AttemptsOk(s) && TrailOk(c, s) && Enabled(c, s, e) && Searching(e)
    ensures Appends(c, s, Step(c, s, e))
  {}

  lemma ReplyAppends(c: Config, s: State, e: Event)
    requires AttemptsOk(s) && TrailOk(c, s) && Enabled(c, s, e) && Replying(e)
    ensures Appends(c, s, Step(c, s, e))
  {}

  lemma TurnAppends(c: Config, s: State, e: Event)
    requires AttemptsOk(s) && TrailOk(c, s) && Enabled(c, s, e) && !Searching(e) && !Replying(e)
    ensures Appends(c, s, Step(c, s, e))
  {}

  lemma HelloTimeOk(c: Config, s: State, e: Event)
    requires AttemptsOk(s) && TimeOk(c, s) && Enabled(c, s, e) && e.HelloReply?
    ensures TimeOk(c, Step(c, s, e))
  {}

  lemma SearchTimeOk(c: Config, s: State, e: Event)
    requires AttemptsOk(s) && TimeOk(c, s) && Enabled(c, s, e) && Searching(e)
    ensures TimeOk(c, Step(c, s, e))
  {
    if e.HelloReply? { HelloTimeOk(c, s, e); }
  }

  lemma ReplyTimeOk(c: Config, s: State, e: Event)
    requires AttemptsOk(s) && TimeOk(c, s) && Enabled(c, s, e) && Replying(e)
    ensures TimeOk(c, Step(c, s, e))
  {
    assert AttemptOk(s, e.socket);
    if e.NonceReply? { NonceTimeOk(c, s, e.socket, e.nonce); }
    if e.PinReply? { PinTimeOk(c, s, e.socket, e.answer); }
  }

  lemma NonceTimeOk(c: Config, s: State, k: nat, n: NonceAnswer)
    requires s.chosen == Some(k) && ChosenOk(s) && TimeOk(c, s) && PhaseOf(s, k).Revealing?
    ensures TimeOk(c, OnNonce(c, s, k, n))
  {}

  lemma PinTimeOk(c: Config, s: State, k: nat, answer: PinAnswer)
    requires s.chosen == Some(k) && ChosenOk(s) && TimeOk(c, s) && PhaseOf(s, k).AskingPin?
    ensures TimeOk(c, OnPin(c, s, k, answer))
  {}

  lemma TurnTimeOk(c: Config, s: State, e: Event)
    requires AttemptsOk(s) && TimeOk(c, s) && Enabled(c, s, e) && !Searching(e) && !Replying(e)
    ensures TimeOk(c, Step(c, s, e))
  {}

  lemma StepAttemptsOk(c: Config, s: State, e: Event)
    requires AttemptsOk(s) && TrailOk(c, s) && Enabled(c, s, e)
    ensures AttemptsOk(Step(c, s, e)) && Appends(c, s, Step(c, s, e))
  {
    var t := Step(c, s, e);
    forall k | k in t.attempts ensures AttemptOk(t, k) {
      if Searching(e) { SearchAttemptOk(c, s, e, k); }
      else if Replying(e) { ReplyAttemptOk(c, s, e, k); }
      else { TurnAttemptOk(c, s, e, k); }
    }
    if Searching(e) { SearchChosenOk(c, s, e); SearchAppends(c, s, e); }
    else if Replying(e) { ReplyChosenOk(c, s, e); ReplyAppends(c, s, e); }
    else { TurnChosenOk(c, s, e); TurnAppends(c, s, e); }
  }

  lemma AppendsKeepsTrailOk(c: Config, s: State, t: State)
    requires TrailOk(c, s) && Appends(c, s, t)
    ensures TrailOk(c, t)
  {
    forall i | 0 <= i < |t.trail| ensures InOrder(c, t.trail, i) && t.chosen == Some(t.trail[i].socket) {
      if i < |s.trail| {
        assert InOrder(c, s.trail, i) && t.trail[i] == s.trail[i] && t.trail[0] == s.trail[0];
        if i >= 2 { assert t.trail[2] == s.trail[2]; }
      }
    }
  }

  lemma StepInv(c: Config, s: State, e: Event)
    requires Inv(c, s) && Enabled(c, s, e)
    ensures Inv(c, Step(c, s, e)) && Appends(c, s, Step(c, s, e))
  {
    StepAttemptsOk(c, s, e);
    AppendsKeepsTrailOk(c, s, Step(c, s, e));
    if Searching(e) { SearchTimeOk(c, s, e); }
    else if Replying(e) { ReplyTimeOk(c, s, e); }
    else { TurnTimeOk(c, s, e); }
  }

  // ---- every run ------------------------------------------------------------------------------

  predicate Valid(c: Config, s: State, es: seq<Event>)
    decreases |es|
  {
    es == [] || (Enabled(c, s, es[0]) && Valid(c, Step(c, s, es[0]), es[1..]))
  }

  function Run(c: Config, s: State, es: seq<Event>): State
    requires Valid(c, s, es)
    decreases |es|
  {
    if es == [] then s else Run(c, Step(c, s, es[0]), es[1..])
  }

  /** What is never undone: the latch, the result, and anything on the trail. */
  predicate Follows(s: State, t: State) {
    && s.trail <= t.trail
    && (s.chosen.Some? ==> t.chosen == s.chosen)
    && (s.settled.Some? ==> t.settled == s.settled && t.trail == s.trail)
  }

  lemma {:induction false} RunInv(c: Config, s: State, es: seq<Event>)
    requires Inv(c, s) && Valid(c, s, es)
    ensures Inv(c, Run(c, s, es)) && Follows(s, Run(c, s, es))
    decreases |es|
  {
    if es == [] {
    } else {
      var t := Step(c, s, es[0]);
      StepInv(c, s, es[0]);
      RunInv(c, t, es[1..]);
      assert s.trail <= t.trail <= Run(c, t, es[1..]).trail;
    }
  }

  /**
   Over every run and however many attempts are in flight, at most one passes the latch. The account
   leaves only as the fourth milestone of that attempt: after a proof of the code, after a revealed
   nonce that opens the commitment it answered, after the viewer confirmed the digits, and with a PIN
   proof for the digits drawn for it. It leaves once, and never after the handover has settled.
   */
  lemma AccountLeavesInOrder(c: Config, before: seq<Event>, after: seq<Event>)
    requires Valid(c, Init(c), before) && Valid(c, Run(c, Init(c), before), after)
    ensures
      var s := Run(c, Init(c), before);
      var t := Run(c, s, after);
      && AttemptsOk(s) && TrailOk(c, s) && TrailOk(c, t) && |t.trail| <= 4 && Follows(s, t)
  {
    RunInv(c, Init(c), before);
    RunInv(c, Run(c, Init(c), before), after);
    var t := Run(c, Run(c, Init(c), before), after);
    assert |t.trail| > 4 ==> InOrder(c, t.trail, 4);
  }

  /** The states a run passes through, from the first to the last. */
  function Trace(c: Config, s: State, es: seq<Event>): (r: seq<State>)
    requires Valid(c, s, es)
    ensures |r| == |es| + 1 && r[0] == s && r[|es|] == Run(c, s, es)
    decreases |es|
  {
    [s] + if es == [] then [] else Trace(c, Step(c, s, es[0]), es[1..])
  }

  lemma {:induction false} TraceSteps(c: Config, s: State, es: seq<Event>, i: nat)
    requires Valid(c, s, es) && i < |es|
    ensures
      var r := Trace(c, s, es);
      Enabled(c, r[i], es[i]) && r[i + 1] == Step(c, r[i], es[i])
    decreases |es|
  {
    if i == 0 {
    } else {
      TraceSteps(c, Step(c, s, es[0]), es[1..], i - 1);
    }
  }

  lemma {:induction false} TraceInv(c: Config, es: seq<Event>, i: nat)
    requires Valid(c, Init(c), es) && i <= |es|
    ensures Inv(c, Trace(c, Init(c), es)[i])
  {
    if i == 0 {
    } else {
      TraceInv(c, es, i - 1);
      TraceSteps(c, Init(c), es, i - 1);
      StepInv(c, Trace(c, Init(c), es)[i - 1], es[i - 1]);
    }
  }

  // ---- the viewer's word -----------------------------------------------------------------------

  /** The two screens' digits are being compared: they have been shown, and nobody has answered. */
  predicate Asked(s: State) {
    s.settled.None? && s.matchPending && |s.trail| == 2 && s.trail[1].Compared?
  }

  /** Event n is the viewer's answer to the comparison. */
  predicate Answers(c: Config, es: seq<Event>, n: nat, ok: bool)
    requires Valid(c, Init(c), es) && n < |es|
  {
    es[n] == ConfirmMatch(ok) && Asked(Trace(c, Init(c), es)[n])
  }

  /** The attempt goes on after the comparison, or has gone on. */
  predicate Agrees(s: State) {
    |s.trail| >= 3 || (s.chosen.Some? && PhaseOf(s, s.chosen.value) == Answered(Some(true)))
  }

  lemma AgreesOnlyWhenTold(c: Config, s: State, e: Event)
    requires Inv(c, s) && Enabled(c, s, e) && !Agrees(s) && Agrees(Step(c, s, e))
    ensures e == ConfirmMatch(true) && Asked(s)
  {
    if s.chosen.Some? { assert AttemptOk(s, s.chosen.value); }
    if |s.trail| >= 2 { assert InOrder(c, s.trail, 1); }
    if Searching(e) { AgreesSearching(c, s, e); }
    else if Replying(e) { AgreesReplying(c, s, e); }
    else { AgreesTurning(c, s, e); }
  }

  lemma AgreesSearching(c: Config, s: State, e: Event)
    requires Inv(c, s) && Enabled(c, s, e) && Searching(e) && !Agrees(s)
    ensures !Agrees(Step(c, s, e))
  {
    if s.chosen.Some? { assert AttemptOk(s, s.chosen.value); }
    if e.HelloReply? || e.HandshakeDone? || e.HandshakeLost? { assert AttemptOk(s, e.socket); }
  }

  lemma AgreesReplying(c: Config, s: State, e: Event)
    requires Inv(c, s) && Enabled(c, s, e) && Replying(e) && !Agrees(s)
    ensures !Agrees(Step(c, s, e))
  {
    assert AttemptOk(s, e.socket);
  }

  lemma AgreesTurning(c: Config, s: State, e: Event)
    requires Inv(c, s) && Enabled(c, s, e) && !Searching(e) && !Replying(e) && !Agrees(s) && Agrees(Step(c, s, e))
    ensures e == ConfirmMatch(true) && Asked(s)
  {
    if s.chosen.Some? { assert AttemptOk(s, s.chosen.value); }
    if |s.trail| >= 2 { assert InOrder(c, s.trail, 1); }
  }

  lemma {:induction false} AgreedByThen(c: Config, es: seq<Event>, i: nat)
    requires Valid(c, Init(c), es) && i <= |es| && Agrees(Trace(c, Init(c), es)[i])
    ensures exists n :: 0 <= n < i && Answers(c, es, n, true)
  {
    var r := Trace(c, Init(c), es);
    if i == 0 {
    } else {
      TraceInv(c, es, i - 1);
      TraceSteps(c, Init(c), es, i - 1);
      if Agrees(r[i - 1]) {
        AgreedByThen(c, es, i - 1);
      } else {
        AgreesOnlyWhenTold(c, r[i - 1], es[i - 1]);
        assert Answers(c, es, i - 1, true);
      }
    }
  }

  /**
   Over any run: the digits are drawn, and so the account leaves, only after the viewer said yes to the
   comparison.
   */
  lemma OnlyAYesGoesOn(c: Config, es: seq<Event>)
    requires Valid(c, Init(c), es) && |Run(c, Init(c), es).trail| >= 3
    ensures exists n :: 0 <= n < |es| && Answers(c, es, n, true)
  {
    AgreedByThen(c, es, |es|);
  }

  /** The handover is on its way out: no comparison, no digits, no account. */
  predicate Refusing(s: State) {
    && s.chosen.Some? && !s.matchPending && |s.trail| == 2
    && (s.settled.None? ==>
          var p := PhaseOf(s, s.chosen.value);
          p == Answered(Some(false)) || (p.Parting? && p.reason.Mismatch?))
    && (s.settled.Some? ==> s.settled.value.Failed?)
  }

  /** What else may end it meanwhile. */
  predicate Interrupts(e: Event) { e.Cancel? || e.SocketClose? }

  lemma StepRefusing(c: Config, s: State, e: Event)
    requires Inv(c, s) && Refusing(s) && Enabled(c, s, e)
    ensures
      var t := Step(c, s, e);
      && Refusing(t) && t.trail == s.trail
      && (s.settled.None? && t.settled.Some? && !Interrupts(e) ==> t.settled == Some(Failed(Mismatch)))
  {
    assert AttemptOk(s, s.chosen.value);
    if e.HelloReply? || e.HandshakeDone? || e.HandshakeLost? { assert AttemptOk(s, e.socket); }
    else if Replying(e) || e.Resume? || e.AbortDone? || e.CompareTimeout? { assert AttemptOk(s, e.socket); }
  }

  lemma {:induction false} StaysRefused(c: Config, s: State, es: seq<Event>)
    requires Inv(c, s) && Refusing(s) && Valid(c, s, es)
    ensures
      var t := Run(c, s, es);
      && Refusing(t) && t.trail == s.trail
      && (s.settled.None? && t.settled.Some? && (forall i :: 0 <= i < |es| ==> !Interrupts(es[i])) ==>
            t.settled == Some(Failed(Mismatch)))
    decreases |es|
  {
    if es == [] {
    } else {
      StepInv(c, s, es[0]);
      StepRefusing(c, s, es[0]);
      StaysRefused(c, Step(c, s, es[0]), es[1..]);
      if Step(c, s, es[0]).settled.Some? { RunInv(c, Step(c, s, es[0]), es[1..]); }
    }
  }

  /**
   After a no nothing more is shown, drawn or sent, whatever anyone does; and the handover fails, as a mismatch
   unless it is cancelled or the connection closes first.
   */
  lemma ANoIsFinal(c: Config, before: seq<Event>, after: seq<Event>)
    requires Valid(c, Init(c), before) && Asked(Run(c, Init(c), before))
    requires Valid(c, Step(c, Run(c, Init(c), before), ConfirmMatch(false)), after)
    ensures
      var s := Run(c, Init(c), before);
      var t := Run(c, Step(c, s, ConfirmMatch(false)), after);
      && t.trail == s.trail && |t.trail| == 2
      && (t.settled.Some? ==> t.settled.value.Failed?)
      && (t.settled.Some? && (forall i :: 0 <= i < |after| ==> !Interrupts(after[i])) ==>
            t.settled == Some(Failed(Mismatch)))
  {
    var s := Run(c, Init(c), before);
    RunInv(c, Init(c), before);
    StepInv(c, s, ConfirmMatch(false));
    StaysRefused(c, Step(c, s, ConfirmMatch(false)), after);
  }

  /** The payload is sent at most once, and only with all three checks and the viewer's yes behind it. */
  lemma PaidOnce(c: Config, es: seq<Event>, i: nat)
    requires Valid(c, Init(c), es)
    requires i < |Run(c, Init(c), es).trail| && Run(c, Init(c), es).trail[i].Paid?
    ensures
      var s := Run(c, Init(c), es);
      && i == 3 && s.confirmed && (exists n :: 0 <= n < |es| && Answers(c, es, n, true))
      && s.trail[0].Latched? && s.trail[1].Compared? && s.trail[2].Agreed?
      && s.trail[0].proof == RemoteProof(c.secret, s.trail[0].link.hash, PeerRole(s.trail[0].link.role))
      && s.trail[0].commit == NonceCommit(c.secret, s.trail[0].link.hash, s.trail[1].theirs)
      && s.trail[3].proof == PinProof(c.secret, s.trail[0].link.hash, PeerRole(s.trail[0].link.role), s.trail[2].pin)
      && forall j :: 0 <= j < |s.trail| ==> s.trail[j].socket == s.trail[i].socket && (s.trail[j].Paid? ==> j == i)
  {
    RunInv(c, Init(c), es);
    var s := Run(c, Init(c), es);
    OnlyAYesGoesOn(c, es);
    assert InOrder(c, s.trail, 0) && InOrder(c, s.trail, 1) && InOrder(c, s.trail, 2) && InOrder(c, s.trail, i);
  }

  /** The sender settles: by the last moment any of its waits can reach. */
  lemma SettlesInTime(c: Config, es: seq<Event>)
    requires Valid(c, Init(c), es)
    ensures
      var s := Run(c, Init(c), es);
      s.clock > LastMoment(c) ==> s.settled.Some?
  {
    RunInv(c, Init(c), es);
  }

  // ---- by what happened alone ------------------------------------------------------------------

  /** What ends an open handover, and as what; nothing else does. */
  function EndOf(c: Config, s: State, e: Event): Option<Result> {
    match e
    case Cancel => Some(Failed(Cancelled))
    case LinkTimer => Some(Failed(if s.refusal.Some? then s.refusal.value else Timeout))
    case SocketClose(k) => if s.chosen == Some(k) then Some(Failed(Timeout)) else None
    case Open(_) => if s.chosen.None? && s.opens >= 8 then Some(Failed(Flooded)) else None
    case PayReply(_, ack) =>
      (match ack
       case NoAck => Some(Failed(Timeout))
       case AckError => Some(Failed(Refused))
       case AckOk => Some(Sent(c.payload.username)))
    case AbortDone(k) => if PhaseOf(s, k).Parting? then Some(Failed(PhaseOf(s, k).reason)) else None
    case _ => None
  }

  lemma SearchEnds(c: Config, s: State, e: Event)
    requires Enabled(c, s, e) && s.settled.None? && Searching(e)
    ensures Step(c, s, e).settled == EndOf(c, s, e)
  {}

  /** Until it has ended, exactly these end it; and then nobody is left being asked. */
  lemma EndsExactlyBy(c: Config, s: State, e: Event)
    requires Inv(c, s) && Enabled(c, s, e) && s.settled.None?
    ensures Step(c, s, e).settled == EndOf(c, s, e)
    ensures Step(c, s, e).settled.Some? ==> !Step(c, s, e).matchPending
  {
    StepInv(c, s, e);
    if Searching(e) { SearchEnds(c, s, e); }
    else if Replying(e) { assert AttemptOk(s, e.socket); }
  }

  /** The reason the phone parts with, when a reply or the comparison's answer stops the exchange. */
  function PartsFor(c: Config, s: State, e: Event): Option<Reason> {
    match e
    case NonceReply(k, NoNonce) => Some(Timeout)
    case NonceReply(k, NonceError) => Some(Refused)
    case NonceReply(k, NonceBody(nonce)) =>
      if nonce.None? then Some(Refused)
      else if s.trail != [] && s.trail[0].Latched? &&
        s.trail[0].commit == NonceCommit(c.secret, s.trail[0].link.hash, nonce.value) then None
      else Some(Mismatch)
    case Resume(k, _) =>
      if PhaseOf(s, k) == Answered(Some(true)) then None
      else if PhaseOf(s, k) == Answered(Some(false)) then Some(Mismatch)
      else Some(Timeout)
    case PinReply(k, NoPin) => Some(Timeout)
    case PinReply(k, PinError(r)) => Some(if r.Cancelled? then Cancelled else Refused)
    case PinReply(k, PinBody(proof)) =>
      if |s.trail| > 2 && s.trail[0].Latched? && s.trail[2].Agreed? &&
        proof == Some(PinProof(c.secret, s.trail[0].link.hash, PeerRole(s.trail[0].link.role), s.trail[2].pin))
          then None
      else Some(PinWrong)
    case _ => None
  }

  predicate Exchanging(e: Event) { e.NonceReply? || e.Resume? || e.PinReply? }

  /**
   Each reply of the exchange goes on with it exactly when it is what it should be, and else parts with its
   reason, soon.
   */
  lemma GoesOnOrParts(c: Config, s: State, e: Event)
    requires Inv(c, s) && Enabled(c, s, e) && s.settled.None? && Exchanging(e)
    ensures
      var t, k := Step(c, s, e), e.socket;
      && t.settled.None? && k in t.attempts
      && (if PartsFor(c, s, e).Some? then
            t.attempts[k].phase == Parting(s.clock + 3000, PartsFor(c, s, e).value) && t.trail == s.trail
          else
            && |t.trail| == |s.trail| + 1
            && t.attempts[k].phase ==
               (match e
                case NonceReply(_, _) => Comparing(s.clock + c.matchMs)
                case Resume(_, _) => AskingPin(s.clock + c.pinMs)
                case _ => Paying(s.clock + c.payloadMs)))
  {
    assert AttemptOk(s, e.socket);
    if e.NonceReply? { NonceGoesOnOrParts(c, s, e); }
    else if e.PinReply? { PinGoesOnOrParts(c, s, e); }
  }

  lemma NonceGoesOnOrParts(c: Config, s: State, e: Event)
    requires Inv(c, s) && Enabled(c, s, e) && s.settled.None? && e.NonceReply?
    ensures
      var t, k := Step(c, s, e), e.socket;
      && t.settled.None? && k in t.attempts
      && (if PartsFor(c, s, e).Some? then
            t.attempts[k].phase == Parting(s.clock + 3000, PartsFor(c, s, e).value) && t.trail == s.trail
          else |t.trail| == |s.trail| + 1 && t.attempts[k].phase == Comparing(s.clock + c.matchMs))
  {
    assert AttemptOk(s, e.socket) && InOrder(c, s.trail, 0);
  }

  lemma PinGoesOnOrParts(c: Config, s: State, e: Event)
    requires Inv(c, s) && Enabled(c, s, e) && s.settled.None? && e.PinReply?
    ensures
      var t, k := Step(c, s, e), e.socket;
      && t.settled.None? && k in t.attempts
      && (if PartsFor(c, s, e).Some? then
            t.attempts[k].phase == Parting(s.clock + 3000, PartsFor(c, s, e).value) && t.trail == s.trail
          else |t.trail| == |s.trail| + 1 && t.attempts[k].phase == Paying(s.clock + c.payloadMs))
  {
    assert AttemptOk(s, e.socket) && InOrder(c, s.trail, 0) && InOrder(c, s.trail, 2);
  }

  /**
   When an answer to the hello is latched onto: nobody is chosen, nothing settled, and it proves the code on its own
   connection and commits to a nonce. Any other answer ends that attempt only.
   */
  lemma LatchesIff(c: Config, s: State, e: Event)
    requires Inv(c, s) && Enabled(c, s, e) && e.HelloReply?
    ensures
      var t, k := Step(c, s, e), e.socket;
      && k in s.attempts && k in t.attempts && t.settled == s.settled
      && var link := s.attempts[k].link;
      && (if && s.chosen.None? && s.settled.None? && e.hello.HelloBody? && e.hello.commit.Some?
             && e.hello.proof == Some(RemoteProof(c.secret, link.hash, PeerRole(link.role)))
          then
            && t.chosen == Some(k) && t.attempts[k].phase == Revealing(s.clock + 15000)
            && t.trail == [Latched(k, link, e.hello.proof.value, e.hello.commit.value, e.drawn)]
          else t.chosen == s.chosen && t.trail == s.trail && t.attempts[k].phase.Over?)
  {
    assert AttemptOk(s, e.socket);
  }

  /**
   An answer to the comparison counts once: as a yes or a no if the viewer gives it, and as neither if nobody
   does.
   */
  lemma AnswerCounts(c: Config, s: State, k: nat, ok: bool)
    requires Inv(c, s) && s.settled.None? && s.matchPending && s.chosen == Some(k)
    ensures
      var t := Step(c, s, ConfirmMatch(ok));
      PhaseOf(t, k) == Answered(Some(ok)) && !t.matchPending && t.settled.None? && t.trail == s.trail
    ensures
      Enabled(c, s, CompareTimeout(k)) ==>
        var t := Step(c, s, CompareTimeout(k));
        PhaseOf(t, k) == Answered(None) && !t.matchPending && t.settled.None? && t.trail == s.trail
  {}

  lemma UnaskedAnswerIsIgnored(c: Config, s: State, ok: bool)
    requires s.settled.Some? || !s.matchPending
    ensures Step(c, s, ConfirmMatch(ok)) == s
  {}

  /** A socket is tried while nobody is chosen: it shakes hands, and then it is asked. */
  lemma SocketIsTried(c: Config, s: State, k: nat, link: Link)
    requires s.chosen.None? && s.settled.None?
    ensures PhaseOf(Step(c, s, Connect), s.accepted).Handshaking? && Step(c, s, Connect).accepted == s.accepted + 1
    ensures
      Enabled(c, s, HandshakeDone(k, link)) ==>
        var t := Step(c, s, HandshakeDone(k, link));
        k in t.attempts && t.attempts[k] == Attempt(link, Greeting)
    ensures Enabled(c, s, HandshakeLost(k)) ==> PhaseOf(Step(c, s, HandshakeLost(k)), k).Over?
  {}

  /** And nobody is tried any more once somebody is chosen, or it is over. */
  lemma LateSocketIsNotTried(c: Config, s: State, k: nat, link: Link)
    requires s.chosen.Some? || s.settled.Some?
    ensures Step(c, s, Connect) == s
    ensures Enabled(c, s, HandshakeDone(k, link)) ==> PhaseOf(Step(c, s, HandshakeDone(k, link)), k).Over?
  {}

  /**
   The refusal worth reporting: the last that named the code's state, or else that some device speaks another
   version.
   */
  function Told(es: seq<Event>): Option<Reason> {
    if es == [] then None
    else
      var before, e := Told(es[..|es| - 1]), es[|es| - 1];
      if e.HelloReply? && e.hello.HelloError? && e.hello.reason in {Used, Expired, Busy} then Some(e.hello.reason)
      else if e.HelloReply? && e.hello == NoHello(true) && before.None? then Some(Version)
      else before
  }

  lemma HelloTells(c: Config, s: State, k: nat, hello: HelloAnswer, drawn: Bytes)
    requires k in s.attempts
    ensures
      OnHello(c, s, k, hello, drawn).refusal ==
      if hello.HelloError? && hello.reason in {Used, Expired, Busy} then Some(hello.reason)
      else if hello == NoHello(true) && s.refusal.None? then Some(Version)
      else s.refusal
  {}

  lemma SearchTellsNothing(c: Config, s: State, e: Event)
    requires Enabled(c, s, e) && Searching(e) && !e.HelloReply?
    ensures Step(c, s, e).refusal == s.refusal
  {}

  lemma ReplyTellsNothing(c: Config, s: State, e: Event)
    requires Enabled(c, s, e) && Replying(e)
    ensures Step(c, s, e).refusal == s.refusal
  {}

  lemma TurnTellsNothing(c: Config, s: State, e: Event)
    requires Enabled(c, s, e) && !Searching(e) && !Replying(e)
    ensures Step(c, s, e).refusal == s.refusal
  {}

  lemma OthersTellNothing(c: Config, s: State, e: Event)
    requires Enabled(c, s, e) && !e.HelloReply?
    ensures Step(c, s, e).refusal == s.refusal
  {
    if Searching(e) { SearchTellsNothing(c, s, e); }
    else if Replying(e) { ReplyTellsNothing(c, s, e); }
    else { TurnTellsNothing(c, s, e); }
  }

  lemma StepTold(c: Config, s: State, e: Event)
    requires Enabled(c, s, e)
    ensures
      Step(c, s, e).refusal ==
      if e.HelloReply? && e.hello.HelloError? && e.hello.reason in {Used, Expired, Busy} then Some(e.hello.reason)
      else if e.HelloReply? && e.hello == NoHello(true) && s.refusal.None? then Some(Version)
      else s.refusal
  {
    if e.HelloReply? {
      HelloTells(c, s, e.socket, e.hello, e.drawn);
      assert Step(c, s, e) == OnHello(c, s, e.socket, e.hello, e.drawn);
    } else {
      OthersTellNothing(c, s, e);
    }
  }

  lemma {:induction false} RefusalIsTold(c: Config, es: seq<Event>, n: nat)
    requires Valid(c, Init(c), es) && n <= |es|
    ensures Trace(c, Init(c), es)[n].refusal == Told(es[..n])
  {
    if n == 0 {
    } else {
      TraceSteps(c, Init(c), es, n - 1);
      StepTold(c, Trace(c, Init(c), es)[n - 1], es[n - 1]);
      RefusalIsTold(c, es, n - 1);
      assert es[..n][..n - 1] == es[..n - 1];
    }
  }

  function Opened(es: seq<Event>): nat {
    if es == [] then 0 else Opened(es[..|es| - 1]) + (if es[|es| - 1].Open? then 1 else 0)
  }

  lemma SearchCountsOpens(c: Config, s: State, e: Event)
    requires Enabled(c, s, e) && Searching(e)
    ensures Step(c, s, e).opens == s.opens + (if e.Open? && s.settled.None? && s.chosen.None? then 1 else 0)
  {}

  lemma OthersCountNone(c: Config, s: State, e: Event)
    requires Enabled(c, s, e) && !Searching(e)
    ensures Step(c, s, e).opens == s.opens
  {}

  lemma StepCountsOpens(c: Config, s: State, e: Event)
    requires Enabled(c, s, e)
    ensures Step(c, s, e).opens == s.opens + (if e.Open? && s.settled.None? && s.chosen.None? then 1 else 0)
  {
    if Searching(e) { SearchCountsOpens(c, s, e); } else { OthersCountNone(c, s, e); }
  }

  lemma {:induction false} OpensAreCounted(c: Config, es: seq<Event>, n: nat)
    requires Valid(c, Init(c), es) && n <= |es|
    requires var s := Trace(c, Init(c), es)[n]; s.settled.None? && s.chosen.None?
    ensures Trace(c, Init(c), es)[n].opens == Opened(es[..n]) <= 8
  {
    if n == 0 {
    } else {
      var s := Trace(c, Init(c), es)[n - 1];
      TraceSteps(c, Init(c), es, n - 1);
      TraceInv(c, es, n - 1);
      StepInv(c, s, es[n - 1]);
      StepCountsOpens(c, s, es[n - 1]);
      OpensAreCounted(c, es, n - 1);
      EndsExactlyBy(c, s, es[n - 1]);
      assert es[..n][..n - 1] == es[..n - 1];
    }
  }

  /** Over any run: nine channels opened on a code and the search is over, whatever they were for. */
  lemma NinthOpenBurns(c: Config, es: seq<Event>)
    requires Valid(c, Init(c), es) && Opened(es) > 8
    ensures Run(c, Init(c), es).settled.Some? || Run(c, Init(c), es).chosen.Some?
  {
    assert es[..|es|] == es;
    if Run(c, Init(c), es).settled.None? && Run(c, Init(c), es).chosen.None? { OpensAreCounted(c, es, |es|); }
  }

  /** The event that is due when the clock has reached the limit of the current wait. */
  function Due(s: State): Event {
    match s.chosen
    case None => LinkTimer
    case Some(k) =>
      match PhaseOf(s, k)
      case Revealing(_) => NonceReply(k, NoNonce)
      case Comparing(_) => CompareTimeout(k)
      case Answered(_) => Resume(k, "0000")
      case AskingPin(_) => PinReply(k, NoPin)
      case Paying(_) => PayReply(k, NoAck)
      case _ => AbortDone(k)
  }

  /** While it has not settled it can always go on: wait up to the limit, and then take the step that is due. */
  lemma NeverStuck(c: Config, es: seq<Event>)
    requires Valid(c, Init(c), es) && Run(c, Init(c), es).settled.None?
    ensures
      var s := Run(c, Init(c), es);
      Enabled(c, s, Wait(Limit(c, s))) && Enabled(c, Step(c, s, Wait(Limit(c, s))), Due(s))
  {
    RunInv(c, Init(c), es);
    var s := Run(c, Init(c), es);
    if s.chosen.Some? { assert AttemptOk(s, s.chosen.value); }
  }

  // ---- the handover on its own variables ------------------------------------------------------

  /** `sendSignIn`'s closure, and for every attempt the code between two of its awaits. */
  class Sender {
    const config: Config
    var settled: Option<Result>
    var chosen: Option<nat>
    var refusal: Option<Reason>
    var signinConns: nat
    var attempts: map<nat, Attempt>
    var accepted: nat
    var matchPending: bool
    var confirmed: bool
    var clock: nat
    var trail: seq<Milestone>

    ghost function View(): State
      reads this
    {
      State(settled, chosen, refusal, signinConns, attempts, accepted, matchPending, confirmed, clock, trail)
    }

    constructor (c: Config)
      ensures config == c && View() == Init(c)
    {
      config := c;
      settled, chosen, refusal, signinConns, attempts, accepted := None, None, None, 0, map[], 0;
      matchPending, confirmed, clock, trail := false, false, c.start, [];
    }

    method Suspend(socket: nat, phase: Phase)
      modifies this`attempts
      ensures View() == Move(old(View()), socket, phase)
    {
      if socket in attempts { attempts := attempts[socket := attempts[socket].(phase := phase)]; }
    }

    method ResolveMatch(agreed: Option<bool>)
      modifies this`attempts, this`matchPending
      ensures View() == AnswerMatch(old(View()), agreed)
    {
      if matchPending && chosen.Some? {
        matchPending := false;
        Suspend(chosen.value, Answered(agreed));
      }
    }

    method Finish(r: Result)
      modifies this`settled, this`attempts, this`matchPending
      ensures View() == FinishWith(old(View()), r)
    {
      if settled.Some? { return; }
      settled := Some(r);
      ResolveMatch(None);
    }

    method Connection()
      modifies this`attempts, this`accepted
      ensures View() == Step(config, old(View()), Connect)
    {
      if chosen.Some? || settled.Some? { return; }
      attempts := attempts[accepted := Attempt(Link([], Initiator), Handshaking)];
      accepted := accepted + 1;
    }

    method Handshake(socket: nat, link: Link)
      requires Enabled(config, View(), HandshakeDone(socket, link))
      modifies this`attempts
      ensures View() == Step(config, old(View()), HandshakeDone(socket, link))
    {
      if chosen.Some? || settled.Some? { Suspend(socket, Over); }
      else { attempts := attempts[socket := Attempt(link, Greeting)]; }
    }

    method ChannelOpens(socket: nat)
      requires Enabled(config, View(), Open(socket))
      modifies this
      ensures View() == Step(config, old(View()), Open(socket))
    {
      if settled.Some? || chosen.Some? { return; }
      signinConns := signinConns + 1;
      if signinConns > MAX_SIGNIN_CONNECTIONS { Finish(Failed(Flooded)); }
    }

    method LatchOnto(socket: nat, link: Link, proof: Mac, commit: Mac, drawn: Bytes)
      modifies this`chosen, this`trail, this`attempts
      ensures View() == Latch(config, old(View()), socket, link, proof, commit, drawn)
    {
      if chosen.Some? || settled.Some? {
        Suspend(socket, Over);
      } else {
        chosen := Some(socket);
        trail := trail + [Latched(socket, link, proof, commit, drawn)];
        Suspend(socket, Revealing(clock + RPC_MS));
      }
    }

    /** From the answer to signin-hello to the next await. */
    method AfterHello(socket: nat, hello: HelloAnswer, drawn: Bytes)
      requires socket in attempts
      modifies this`chosen, this`trail, this`attempts, this`refusal
      ensures View() == OnHello(config, old(View()), socket, hello, drawn)
    {
      match hello
      case NoHello(other) =>
        if other && refusal.None? { refusal := Some(Version); }
        Suspend(socket, Over);
      case HelloError(r) =>
        if r.Used? || r.Expired? || r.Busy? { refusal := Some(r); }
        Suspend(socket, Over);
      case HelloBody(proof, commit) =>
        var link := attempts[socket].link;
        if proof.None? || commit.None? || proof.value != RemoteProof(config.secret, link.hash, PeerRole(link.role)) {
          Suspend(socket, Over);
        } else {
          LatchOnto(socket, link, proof.value, commit.value, drawn);
        }
    }

    method SayGoodbye(socket: nat, r: Reason)
      modifies this`attempts
      ensures View() == Part(old(View()), socket, r)
    {
      Suspend(socket, Parting(clock + ABORT_MS, r));
    }

    /** From the answer to signin-nonce to the viewer's comparison. */
    method AfterNonce(socket: nat, n: NonceAnswer)
      requires trail != [] && trail[0].Latched?
      modifies this`trail, this`attempts, this`matchPending
      ensures View() == OnNonce(config, old(View()), socket, n)
    {
      if settled.Some? {
        Suspend(socket, Over);
        return;
      }
      match n
      case NoNonce => SayGoodbye(socket, Timeout);
      case NonceError => SayGoodbye(socket, Refused);
      case NonceBody(theirs) =>
        if theirs.None? {
          SayGoodbye(socket, Refused);
        } else {
          var l := trail[0];
          if NonceCommit(config.secret, l.link.hash, theirs.value) != l.commit {
            SayGoodbye(socket, Mismatch);
          } else {
            matchPending := true;
            trail := trail + [Compared(socket, theirs.value, SasDigits(config.secret, l.link, l.mine, theirs.value))];
            Suspend(socket, Comparing(clock + config.matchMs));
          }
        }
    }

    method AnswerComparison(ok: bool) returns (taken: bool)
      modifies this`attempts, this`matchPending, this`confirmed
      ensures View() == Step(config, old(View()), ConfirmMatch(ok))
      ensures taken == (old(settled).None? && old(matchPending))
    {
      if settled.Some? || !matchPending { return false; }
      confirmed := ok;
      ResolveMatch(Some(ok));
      return true;
    }

    /** From the comparison's answer to the PIN request. */
    method AfterComparison(socket: nat, agreed: Option<bool>, pin: string)
      modifies this`trail, this`attempts
      ensures View() == OnAgreed(config, old(View()), socket, agreed, pin)
    {
      if settled.Some? {
        Suspend(socket, Over);
      } else if agreed != Some(true) {
        SayGoodbye(socket, if agreed == Some(false) then Mismatch else Timeout);
      } else {
        trail := trail + [Agreed(socket, pin)];
        Suspend(socket, AskingPin(clock + config.pinMs));
      }
    }

    /** From the answer to signin-pin to the payload. */
    method AfterPin(socket: nat, answer: PinAnswer)
      requires |trail| >= 3 && trail[0].Latched? && trail[2].Agreed?
      modifies this`trail, this`attempts
      ensures View() == OnPin(config, old(View()), socket, answer)
    {
      if settled.Some? {
        Suspend(socket, Over);
        return;
      }
      match answer
      case NoPin => SayGoodbye(socket, Timeout);
      case PinError(r) => SayGoodbye(socket, if r.Cancelled? then Cancelled else Refused);
      case PinBody(proof) =>
        var link, pin := trail[0].link, trail[2].pin;
        if proof != Some(PinProof(config.secret, link.hash, PeerRole(link.role), pin)) {
          SayGoodbye(socket, PinWrong);
        } else {
          trail := trail + [Paid(socket, proof.value, config.payload)];
          Suspend(socket, Paying(clock + config.payloadMs));
        }
    }

    method AfterPayload(socket: nat, ack: PayAnswer)
      modifies this`settled, this`attempts, this`matchPending
      ensures View() == OnAck(config, old(View()), socket, ack)
    {
      match ack {
        case NoAck => Finish(Failed(Timeout));
        case AckError => Finish(Failed(Refused));
        case AckOk => Finish(Sent(config.payload.username));
      }
      Suspend(socket, Over);
    }

    method AfterGoodbye(socket: nat)
      requires Enabled(config, View(), AbortDone(socket))
      modifies this`settled, this`attempts, this`matchPending
      ensures View() == Step(config, old(View()), AbortDone(socket))
    {
      var r := attempts[socket].phase.reason;
      Finish(Failed(r));
      Suspend(socket, Over);
    }

    method LinkTimerFires()
      requires Enabled(config, View(), LinkTimer)
      modifies this`settled, this`attempts, this`matchPending
      ensures View() == Step(config, old(View()), LinkTimer)
    {
      Finish(Failed(if refusal.Some? then refusal.value else Timeout));
    }

    method SocketCloses(socket: nat)
      requires Enabled(config, View(), SocketClose(socket))
      modifies this`settled, this`attempts, this`matchPending
      ensures View() == Step(config, old(View()), SocketClose(socket))
    {
      if chosen == Some(socket) { Finish(Failed(Timeout)); }
    }

    method GiveUp()
      modifies this`settled, this`attempts, this`matchPending
      ensures View() == Step(config, old(View()), Cancel)
    {
      Finish(Failed(Cancelled));
    }
  }
}
