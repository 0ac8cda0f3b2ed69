/**
 The two sign-in roles together (sdk/signin-pair.js): what their screens show over any two runs, and
 the exchange between two honest devices on one connection, from the first message to the payload, with
 strangers, clocks and hangups of other sockets in between.
 */
module SigninHandover {
  import opened Wrappers
  import opened SigninWire
  import TV = SigninReceiver
  import Phone = SigninSender

  /**
   Over any run of either role, and whatever travelled between them: once both screens show digits for
   one code, the digits are the same exactly when the two roles hold the two ends of one connection and
   each was given the nonce the other drew. A peer that terminates one connection to each of them, or
   swaps a nonce, shows in the comparison, whichever side is the initiator.
   */
  lemma EqualDigitsMeanOneConnection(tv: TV.Config, phone: Phone.Config, tvRun: seq<TV.Event>,
                                     phoneRun: seq<Phone.Event>)
    requires tv.secret == phone.secret
    requires TV.Valid(tv, TV.Init(tv), tvRun) && Phone.Valid(phone, Phone.Init(phone), phoneRun)
    requires |TV.Run(tv, TV.Init(tv), tvRun).trail| >= 2 && |Phone.Run(phone, Phone.Init(phone), phoneRun).trail| >= 2
    ensures
      var t := TV.Run(tv, TV.Init(tv), tvRun).trail;
      var p := Phone.Run(phone, Phone.Init(phone), phoneRun).trail;
      && t[0].Linked? && t[1].Shown? && p[0].Latched? && p[1].Compared?
      && (t[0].link.role == PeerRole(p[0].link.role) ==>
            (t[1].sas == p[1].sas <==>
              t[0].link.hash == p[0].link.hash && t[1].revealed == p[1].theirs && p[0].mine == t[1].theirs))
  {
    TV.RunInv(tv, TV.Init(tv), tvRun);
    Phone.RunInv(phone, Phone.Init(phone), phoneRun);
    var t := TV.Run(tv, TV.Init(tv), tvRun).trail;
    var p := Phone.Run(phone, Phone.Init(phone), phoneRun).trail;
    assert TV.InOrder(tv, t, 0) && TV.InOrder(tv, t, 1);
    assert Phone.InOrder(phone, p, 0) && Phone.InOrder(phone, p, 1);
    if t[0].link.role == PeerRole(p[0].link.role) {
      ScreensAgree(tv.secret, t[0].link, p[0].link, t[1].revealed, t[1].theirs, p[0].mine, p[1].theirs);
    }
  }

  // ---- one honest exchange among strangers -------------------------------------------------------

  /** What the connection, the two draws of nonces and the draw of digits contribute. */
  datatype Honest = Honest(hash: Bytes, phoneRole: Role, nonceTv: Bytes, noncePhone: Bytes, pin: string)

  datatype Setting = Setting(honest: Honest, tv: TV.Config, phone: Phone.Config)

  predicate Fits(x: Setting) {
    && x.tv.secret == x.phone.secret
    && IsHash(x.honest.hash) && IsNonce(x.honest.nonceTv) && IsNonce(x.honest.noncePhone) && IsPin(x.honest.pin)
    && NormalizePayload(x.phone.payload) == Some(x.phone.payload)
  }

  function TvLink(h: Honest): Link { Link(h.hash, PeerRole(h.phoneRole)) }

  function PhoneLink(h: Honest): Link { Link(h.hash, h.phoneRole) }

  /**
   Both devices, the sockets each has for the other, how far the exchange has come, and the television's
   last reply in it. Each step of the exchange takes it one further, from 0 to ACKNOWLEDGED.
   */
  datatype Joint = Joint(tv: TV.State, phone: Phone.State, tvSocket: Option<nat>, phoneSocket: Option<nat>, at: nat,
                         wire: TV.Reply)

  const SHOWN := 5
  const RECEIVED := 11
  const ACKNOWLEDGED := 12

  function Init(x: Setting): Joint {
    Joint(TV.Init(x.tv), Phone.Init(x.phone), None, None, 0, TV.Silence)
  }

  /**
   Meets: their connection reaches the device. Exchange: its next step. Alone: anything else a device does or
   meets.
   */
  datatype Event =
    | TvMeets | PhoneMeets | Exchange | ViewerTypes
    | TvAlone(tv: TV.Event) | PhoneAlone(phone: Phone.Event)

  predicate TvTurn(at: nat) { at == 1 || at == 3 || at == 7 || at == 8 || at == 10 }

  // What the phone sends is read off the phone's own state.

  function HelloProof(x: Setting, j: Joint): Option<Mac> {
    if j.phoneSocket.Some? && j.phoneSocket.value in j.phone.attempts then
      var link := j.phone.attempts[j.phoneSocket.value].link;
      Some(RemoteProof(x.phone.secret, link.hash, link.role))
    else None
  }

  function SentNonce(s: Phone.State): Option<Bytes> {
    if |s.trail| > 0 && s.trail[0].Latched? && IsNonce(s.trail[0].mine) then Some(s.trail[0].mine) else None
  }

  function ShownPin(s: Phone.State): string {
    if |s.trail| > 2 && s.trail[2].Agreed? then s.trail[2].pin else ""
  }

  function SentPayload(s: Phone.State): Option<Payload> {
    if |s.trail| > 3 && s.trail[3].Paid? then Some(s.trail[3].payload) else None
  }

  function TvInput(x: Setting, j: Joint, k: nat): TV.Event {
    if j.at == 1 then TV.Hello(k, true, true, HelloProof(x, j), x.honest.nonceTv)
    else if j.at == 3 then TV.NonceMsg(k, SentNonce(j.phone))
    else if j.at == 7 then TV.PinMsg(k, true)
    else if j.at == 8 then TV.PinResume
    else TV.PayloadMsg(k, SentPayload(j.phone))
  }

  // What the phone is answered is what the television replied.

  function HelloOf(r: TV.Reply): Phone.HelloAnswer {
    match r
    case HelloOk(proof, commit) => Phone.HelloBody(Some(proof), Some(commit))
    case Refuse(reason) => Phone.HelloError(reason)
    case _ => Phone.NoHello(false)
  }

  function NonceOf(r: TV.Reply): Phone.NonceAnswer {
    match r
    case Reveal(nonce) => Phone.NonceBody(if IsNonce(nonce) then Some(nonce) else None)
    case Refuse(_) => Phone.NonceError
    case _ => Phone.NoNonce
  }

  function PinOf(r: TV.Reply): Phone.PinAnswer {
    match r
    case PinOk(proof) => Phone.PinBody(Some(proof))
    case Refuse(reason) => Phone.PinError(reason)
    case _ => Phone.NoPin
  }

  function AckOf(r: TV.Reply): Phone.PayAnswer {
    match r
    case Ack => Phone.AckOk
    case Refuse(_) => Phone.AckError
    case _ => Phone.NoAck
  }

  /** What the viewer answers after comparing the two screens. */
  predicate SameDigits(j: Joint) {
    && |j.tv.trail| > 1 && j.tv.trail[1].Shown? && |j.phone.trail| > 1 && j.phone.trail[1].Compared?
    && j.tv.trail[1].sas == j.phone.trail[1].sas
  }

  function PhoneInput(x: Setting, j: Joint, k: nat): Phone.Event {
    if j.at == 0 then Phone.HandshakeDone(k, PhoneLink(x.honest))
    else if j.at == 2 then Phone.HelloReply(k, HelloOf(j.wire), x.honest.noncePhone)
    else if j.at == 4 then Phone.NonceReply(k, NonceOf(j.wire))
    else if j.at == 5 then Phone.ConfirmMatch(SameDigits(j))
    else if j.at == 6 then Phone.Resume(k, x.honest.pin)
    else if j.at == 9 then Phone.PinReply(k, PinOf(j.wire))
    else Phone.PayReply(k, AckOf(j.wire))
  }

  /** Anyone but the phone, who may say and do anything but prove a code nobody has claimed; timers not yet due. */
  predicate TvStranger(x: Setting, j: Joint, e: TV.Event) {
    match e
    case Connect(_) => true
    case Open(_) => j.tv.net.opens < MAX_SIGNIN_CONNECTIONS
    case SocketClose(k) => j.tvSocket != Some(k)
    case Hello(k, _, _, proof, _) =>
      && j.tvSocket != Some(k)
      && (j.tv.peer.Some? || k !in j.tv.net.links
          || proof != Some(RemoteProof(x.tv.secret, j.tv.net.links[k].hash, PeerRole(j.tv.net.links[k].role))))
    case NonceMsg(k, _) => j.tvSocket != Some(k)
    case PinMsg(k, _) => j.tvSocket != Some(k)
    case PayloadMsg(k, _) => j.tvSocket != Some(k)
    case AbortMsg(k, _) => j.tvSocket != Some(k)
    case ChoreFires => true
    case Wait(_) => true
    case _ => false
  }

  predicate PhoneStranger(x: Setting, j: Joint, e: Phone.Event) {
    match e
    case Connect => true
    case HandshakeDone(k, _) => j.phoneSocket != Some(k)
    case HandshakeLost(k) => j.phoneSocket != Some(k)
    case Open(_) => j.phone.opens < MAX_SIGNIN_CONNECTIONS || j.phone.chosen.Some?
    case SocketClose(k) => j.phoneSocket != Some(k)
    case HelloReply(k, hello, _) =>
      && j.phoneSocket != Some(k)
      && (j.phone.chosen.Some? || k !in j.phone.attempts || !hello.HelloBody?
          || var link := j.phone.attempts[k].link;
             hello.proof != Some(RemoteProof(x.phone.secret, link.hash, PeerRole(link.role))))
    case Wait(_) => true
    case _ => false
  }

  /** The next step of the exchange can be taken; the hello, only before the code expires. */
  predicate Ready(x: Setting, j: Joint) {
    && j.at < ACKNOWLEDGED && (if TvTurn(j.at) then j.tvSocket.Some? else j.phoneSocket.Some?)
    && (j.at == 1 ==> j.tv.clock < x.tv.expiresAt)
    && (if TvTurn(j.at) then TV.Enabled(j.tv, TvInput(x, j, j.tvSocket.value))
        else Phone.Enabled(x.phone, j.phone, PhoneInput(x, j, j.phoneSocket.value)))
  }

  predicate Enabled(x: Setting, j: Joint, e: Event) {
    match e
    case TvMeets => j.tvSocket.None? && TV.Enabled(j.tv, TV.Connect(TvLink(x.honest)))
    case PhoneMeets => j.phoneSocket.None?
    case Exchange => Ready(x, j)
    case ViewerTypes => j.at == 7 || j.at == 8
    case TvAlone(e) => TV.Enabled(j.tv, e) && TvStranger(x, j, e)
    case PhoneAlone(e) => Phone.Enabled(x.phone, j.phone, e) && PhoneStranger(x, j, e)
  }

  /** The digits may have been typed before they are asked for; then the answer comes at once. */
  function Further(at: nat, t: TV.State): nat { if at == 7 && t.pin.sent then 9 else at + 1 }

  function Exchanged(x: Setting, j: Joint): Joint
    requires Ready(x, j)
  {
    if TvTurn(j.at) then
      var t := TV.Step(x.tv, j.tv, TvInput(x, j, j.tvSocket.value));
      j.(tv := t, at := Further(j.at, t), wire := t.reply)
    else
      j.(phone := Phone.Step(x.phone, j.phone, PhoneInput(x, j, j.phoneSocket.value)), at := j.at + 1)
  }

  function Step(x: Setting, j: Joint, e: Event): Joint
    requires Enabled(x, j, e)
  {
    match e
    case TvMeets =>
      j.(tv := TV.Step(x.tv, j.tv, TV.Connect(TvLink(x.honest))), tvSocket := Some(j.tv.net.accepted))
    case PhoneMeets =>
      j.(phone := Phone.Step(x.phone, j.phone, Phone.Connect), phoneSocket := Some(j.phone.accepted))
    case Exchange => Exchanged(x, j)
    case ViewerTypes => j.(tv := TV.Step(x.tv, j.tv, TV.SubmitPin(ShownPin(j.phone))))
    case TvAlone(e) => j.(tv := TV.Step(x.tv, j.tv, e))
    case PhoneAlone(e) => j.(phone := Phone.Step(x.phone, j.phone, e))
  }

  // ---- where each device is ----------------------------------------------------------------------

  predicate NoneFails(chores: seq<TV.Chore>) { forall i :: 0 <= i < |chores| ==> !chores[i].Fail? }

  predicate TvDigits(h: Honest, p: TV.PinState, at: nat) {
    && (p.pending.Some? ==> p.pending.value == h.pin && at >= 7)
    && (p.sent <==> at >= 9)
    && (p.asked <==> at >= 8)
    && (if at == 8 then (if p.waiting then p.answer.None? else p.answer == Some(Some(h.pin)))
        else !p.waiting && p.answer.None?)
  }

  predicate TvAt(x: Setting, s: TV.State, socket: Option<nat>, at: nat) {
    var h := x.honest;
    && (socket.Some? ==>
          socket.value < s.net.accepted && socket.value in s.net.links && s.net.links[socket.value] == TvLink(h))
    && NoneFails(s.net.chores) && TvDigits(h, s.pin, at)
    && (s.settled.Some? ==> at >= RECEIVED && s.settled.value.Resolved?)
    && (at < 2 ==> s.peer.None?)
    && (at >= 2 ==> socket.Some? && s.peer == Some(TV.Peer(socket.value, TvLink(h), h.nonceTv, at >= 4)))
    && (at >= 4 ==> |s.trail| >= 2 && s.trail[1].Shown? && s.trail[1].theirs == h.noncePhone)
    && (if at < RECEIVED then |s.trail| <= 3
        else |s.trail| > 3 && s.trail[3].Received? && s.trail[3].payload == x.phone.payload)
  }

  predicate WireAt(x: Setting, r: TV.Reply, at: nat) {
    var h, secret, role := x.honest, x.tv.secret, PeerRole(x.honest.phoneRole);
    && (at == 2 ==> r == TV.HelloOk(RemoteProof(secret, h.hash, role), NonceCommit(secret, h.hash, h.nonceTv)))
    && (at == 4 ==> r == TV.Reveal(h.nonceTv))
    && (at == 9 ==> r == TV.PinOk(PinProof(secret, h.hash, role, h.pin)))
    && (at == RECEIVED ==> r == TV.Ack)
  }

  predicate PhaseAt(p: Phone.Phase, at: nat) {
    if at == 0 then p.Handshaking?
    else if at < 3 then p.Greeting?
    else if at < 5 then p.Revealing?
    else if at == 5 then p.Comparing?
    else if at == 6 then p == Phone.Answered(Some(true))
    else if at < 10 then p.AskingPin?
    else if at < ACKNOWLEDGED then p.Paying?
    else p.Over?
  }

  predicate PhoneTrailAt(x: Setting, trail: seq<Phone.Milestone>, k: nat, at: nat) {
    var h := x.honest;
    && (at >= 3 ==>
          && |trail| >= 1 && trail[0].Latched? && trail[0].link == PhoneLink(h) && trail[0].mine == h.noncePhone
          && trail[0].commit == NonceCommit(x.phone.secret, h.hash, h.nonceTv))
    && (at >= 5 ==> |trail| >= 2 && trail[1].Compared? && trail[1].theirs == h.nonceTv)
    && (at >= 7 ==> |trail| >= 3 && trail[2] == Phone.Agreed(k, h.pin))
    && (at >= 10 ==> |trail| >= 4 && trail[3].Paid? && trail[3].payload == x.phone.payload)
  }

  predicate PhoneAt(x: Setting, s: Phone.State, socket: Option<nat>, at: nat) {
    && (at < ACKNOWLEDGED ==> s.settled.None?)
    && (at >= ACKNOWLEDGED ==> s.settled == Some(Phone.Sent(x.phone.payload.username)))
    && (at >= 1 ==> socket.Some?)
    && (at < 3 ==> s.chosen.None?)
    && (at >= 3 ==> s.chosen == socket)
    && (socket.Some? ==>
          var k := socket.value;
          && k in s.attempts && PhaseAt(s.attempts[k].phase, at) && PhoneTrailAt(x, s.trail, k, at)
          && (at >= 1 ==> s.attempts[k].link == PhoneLink(x.honest)))
  }

  predicate Inv(x: Setting, j: Joint) {
    && TV.Inv(x.tv, j.tv) && Phone.Inv(x.phone, j.phone) && j.at <= ACKNOWLEDGED
    && TvAt(x, j.tv, j.tvSocket, j.at) && PhoneAt(x, j.phone, j.phoneSocket, j.at) && WireAt(x, j.wire, j.at)
  }

  // ---- strangers, clocks and hangups change nothing of it ------------------------------------------

  lemma TvChoreKeeps(x: Setting, j: Joint)
    requires Inv(x, j) && j.tv.net.chores != []
    ensures TvAt(x, TV.RunChore(j.tv), j.tvSocket, j.at)
  {
    assert forall i :: 0 <= i < |j.tv.net.chores[1..]| ==> j.tv.net.chores[1..][i] == j.tv.net.chores[i + 1];
  }

  lemma TvHelloKeeps(x: Setting, j: Joint, e: TV.Event)
    requires Inv(x, j) && TV.Enabled(j.tv, e) && TvStranger(x, j, e) && e.Hello?
    ensures TvAt(x, TV.Step(x.tv, j.tv, e), j.tvSocket, j.at)
  {}

  lemma TvAloneKeeps(x: Setting, j: Joint, e: TV.Event)
    requires Inv(x, j) && TV.Enabled(j.tv, e) && TvStranger(x, j, e)
    ensures TvAt(x, TV.Step(x.tv, j.tv, e), j.tvSocket, j.at)
  {
    if e.ChoreFires? { TvChoreKeeps(x, j); }
    else if e.Hello? { TvHelloKeeps(x, j, e); }
  }

  /** A hello answered by anyone else ends that attempt and nothing more. */
  lemma StrangersHelloEnds(x: Setting, j: Joint, e: Phone.Event)
    requires Phone.Enabled(x.phone, j.phone, e) && PhoneStranger(x, j, e) && e.HelloReply?
    ensures
      var s, t, k := j.phone, Phone.Step(x.phone, j.phone, e), e.socket;
      && t.attempts == s.attempts[k := s.attempts[k].(phase := Phone.Over)]
      && t.settled == s.settled && t.chosen == s.chosen && t.trail == s.trail
  {}

  lemma PhoneHelloKeeps(x: Setting, j: Joint, e: Phone.Event, t: Phone.State)
    requires Inv(x, j) && PhoneStranger(x, j, e) && e.HelloReply? && e.socket in j.phone.attempts
    requires t.attempts == j.phone.attempts[e.socket := j.phone.attempts[e.socket].(phase := Phone.Over)]
    requires t.settled == j.phone.settled && t.chosen == j.phone.chosen && t.trail == j.phone.trail
    ensures PhoneAt(x, t, j.phoneSocket, j.at)
  {}

  lemma PhoneAloneKeeps(x: Setting, j: Joint, e: Phone.Event)
    requires Inv(x, j) && Phone.Enabled(x.phone, j.phone, e) && PhoneStranger(x, j, e)
    ensures PhoneAt(x, Phone.Step(x.phone, j.phone, e), j.phoneSocket, j.at)
  {
    if j.phoneSocket.Some? { assert Phone.AttemptOk(j.phone, j.phoneSocket.value); }
    if e.HelloReply? {
      StrangersHelloEnds(x, j, e);
      PhoneHelloKeeps(x, j, e, Phone.Step(x.phone, j.phone, e));
    }
  }

  // ---- each step of the exchange is accepted -------------------------------------------------------

  lemma TvAcceptsHello(x: Setting, j: Joint)
    requires Fits(x) && Inv(x, j) && Ready(x, j) && j.at == 1
    ensures
      var t := Exchanged(x, j);
      TvAt(x, t.tv, t.tvSocket, 2) && PhoneAt(x, t.phone, t.phoneSocket, 2) && WireAt(x, t.wire, 2)
  {}

  lemma TvAcceptsNonce(x: Setting, j: Joint)
    requires Fits(x) && Inv(x, j) && Ready(x, j) && j.at == 3
    ensures
      var t := Exchanged(x, j);
      TvAt(x, t.tv, t.tvSocket, 4) && PhoneAt(x, t.phone, t.phoneSocket, 4) && WireAt(x, t.wire, 4)
  {}

  lemma TvHearsPinRequest(x: Setting, j: Joint)
    requires Fits(x) && Inv(x, j) && Ready(x, j) && j.at == 7
    ensures
      var t := Exchanged(x, j);
      TvAt(x, t.tv, t.tvSocket, t.at) && PhoneAt(x, t.phone, t.phoneSocket, t.at) && WireAt(x, t.wire, t.at)
  {}

  lemma TvAnswersPin(x: Setting, j: Joint)
    requires Fits(x) && Inv(x, j) && Ready(x, j) && j.at == 8
    ensures
      var t := Exchanged(x, j);
      TvAt(x, t.tv, t.tvSocket, 9) && PhoneAt(x, t.phone, t.phoneSocket, 9) && WireAt(x, t.wire, 9)
  {}

  lemma TvAcceptsPayload(x: Setting, j: Joint)
    requires Fits(x) && Inv(x, j) && Ready(x, j) && j.at == 10
    ensures
      var t := Exchanged(x, j);
      TvAt(x, t.tv, t.tvSocket, RECEIVED) && PhoneAt(x, t.phone, t.phoneSocket, RECEIVED) && WireAt(x, t.wire, RECEIVED)
  {}

  lemma TvAccepts(x: Setting, j: Joint)
    requires Fits(x) && Inv(x, j) && Ready(x, j) && TvTurn(j.at)
    ensures
      var t := Exchanged(x, j);
      TvAt(x, t.tv, t.tvSocket, t.at) && PhoneAt(x, t.phone, t.phoneSocket, t.at) && WireAt(x, t.wire, t.at)
  {
    if j.at == 1 { TvAcceptsHello(x, j); }
    else if j.at == 3 { TvAcceptsNonce(x, j); }
    else if j.at == 10 { TvAcceptsPayload(x, j); }
    else if j.at == 7 { TvHearsPinRequest(x, j); }
    else { TvAnswersPin(x, j); }
  }

  /** Two honest screens show the same digits, so the viewer's answer is yes. */
  lemma ScreensMatch(x: Setting, j: Joint)
    requires Fits(x) && Inv(x, j) && j.at >= SHOWN
    ensures SameDigits(j)
  {
    var h := x.honest;
    assert TV.InOrder(x.tv, j.tv.trail, 0) && TV.InOrder(x.tv, j.tv.trail, 1);
    assert Phone.InOrder(x.phone, j.phone.trail, 0) && Phone.InOrder(x.phone, j.phone.trail, 1);
    ScreensAgree(x.tv.secret, TvLink(h), PhoneLink(h), h.nonceTv, h.noncePhone, h.noncePhone, h.nonceTv);
  }

  lemma PhoneLinks(x: Setting, j: Joint)
    requires Fits(x) && Inv(x, j) && Ready(x, j) && (j.at == 0 || j.at == 2)
    ensures PhoneAt(x, Exchanged(x, j).phone, j.phoneSocket, j.at + 1)
  {}

  lemma PhoneCompares(x: Setting, j: Joint)
    requires Fits(x) && Inv(x, j) && Ready(x, j) && 4 <= j.at <= 6
    ensures PhoneAt(x, Exchanged(x, j).phone, j.phoneSocket, j.at + 1)
  {
    assert Phone.AttemptOk(j.phone, j.phoneSocket.value);
    if j.at >= SHOWN { ScreensMatch(x, j); }
  }

  lemma PhonePays(x: Setting, j: Joint)
    requires Fits(x) && Inv(x, j) && Ready(x, j) && (j.at == 9 || j.at == 11)
    ensures PhoneAt(x, Exchanged(x, j).phone, j.phoneSocket, j.at + 1)
  {
    assert Phone.AttemptOk(j.phone, j.phoneSocket.value);
  }

  lemma PhoneGoesOn(x: Setting, j: Joint)
    requires Fits(x) && Inv(x, j) && Ready(x, j) && !TvTurn(j.at)
    ensures
      var t := Exchanged(x, j);
      TvAt(x, t.tv, t.tvSocket, t.at) && PhoneAt(x, t.phone, t.phoneSocket, t.at) && WireAt(x, t.wire, t.at)
  {
    assert Phone.AttemptOk(j.phone, j.phoneSocket.value);
    if j.at <= 2 { PhoneLinks(x, j); }
    else if j.at <= 6 { PhoneCompares(x, j); }
    else { PhonePays(x, j); }
  }

  lemma MeetsKeeps(x: Setting, j: Joint, e: Event)
    requires Fits(x) && Inv(x, j) && Enabled(x, j, e) && (e.TvMeets? || e.PhoneMeets?)
    ensures Inv(x, Step(x, j, e))
  {
    if e.TvMeets? {
      TV.StepInv(x.tv, j.tv, TV.Connect(TvLink(x.honest)));
    } else {
      Phone.StepInv(x.phone, j.phone, Phone.Connect);
    }
  }

  lemma TypingKeeps(x: Setting, j: Joint)
    requires Fits(x) && Inv(x, j) && (j.at == 7 || j.at == 8)
    ensures Inv(x, Step(x, j, ViewerTypes)) && (j.at == 8 ==> Step(x, j, ViewerTypes).tv.pin.answer.Some?)
  {
    TV.StepInv(x.tv, j.tv, TV.SubmitPin(ShownPin(j.phone)));
  }

  lemma ExchangeKeeps(x: Setting, j: Joint)
    requires Fits(x) && Inv(x, j) && Ready(x, j)
    ensures Inv(x, Exchanged(x, j))
  {
    if TvTurn(j.at) {
      TV.StepInv(x.tv, j.tv, TvInput(x, j, j.tvSocket.value));
      TvAccepts(x, j);
    } else {
      Phone.StepInv(x.phone, j.phone, PhoneInput(x, j, j.phoneSocket.value));
      PhoneGoesOn(x, j);
    }
  }

  lemma StepInv(x: Setting, j: Joint, e: Event)
    requires Fits(x) && Inv(x, j) && Enabled(x, j, e)
    ensures Inv(x, Step(x, j, e))
  {
    match e
    case TvMeets => MeetsKeeps(x, j, e);
    case PhoneMeets => MeetsKeeps(x, j, e);
    case Exchange => ExchangeKeeps(x, j);
    case ViewerTypes => TypingKeeps(x, j);
    case TvAlone(a) =>
      TV.StepInv(x.tv, j.tv, a);
      TvAloneKeeps(x, j, a);
    case PhoneAlone(a) =>
      Phone.StepInv(x.phone, j.phone, a);
      PhoneAloneKeeps(x, j, a);
  }

  // ---- every joint run -----------------------------------------------------------------------------

  predicate Valid(x: Setting, j: Joint, es: seq<Event>)
    decreases |es|
  {
    es == [] || (Enabled(x, j, es[0]) && Valid(x, Step(x, j, es[0]), es[1..]))
  }

  function Run(x: Setting, j: Joint, es: seq<Event>): Joint
    requires Valid(x, j, es)
    decreases |es|
  {
    if es == [] then j else Run(x, Step(x, j, es[0]), es[1..])
  }

  lemma {:induction false} RunInv(x: Setting, j: Joint, es: seq<Event>)
    requires Fits(x) && Inv(x, j) && Valid(x, j, es)
    ensures Inv(x, Run(x, j, es))
    decreases |es|
  {
    if es == [] {
    } else {
      StepInv(x, j, es[0]);
      RunInv(x, Step(x, j, es[0]), es[1..]);
    }
  }

  /**
   However strangers connect, lie, hang up and wait beside them, an honest television and an honest phone on one
   connection never fail: both screens show the same digits, the phone ends up having sent the account it
   holds, and the television, once it has run what it put off, having received exactly that account.
   */
  lemma HonestHandoverCompletes(x: Setting, es: seq<Event>)
    requires Fits(x) && Valid(x, Init(x), es)
    ensures
      var j := Run(x, Init(x), es);
      && (j.tv.settled.Some? ==> j.tv.settled == Some(TV.Resolved(x.phone.payload)))
      && (j.phone.settled.Some? ==> j.phone.settled == Some(Phone.Sent(x.phone.payload.username)))
      && (j.at >= SHOWN ==> SameDigits(j))
      && (j.at >= RECEIVED && j.tv.net.chores == [] ==> j.tv.settled.Some?)
      && (j.at == ACKNOWLEDGED ==> j.phone.settled.Some?)
  {
    RunInv(x, Init(x), es);
    if Run(x, Init(x), es).at >= SHOWN { ScreensMatch(x, Run(x, Init(x), es)); }
  }

  /** Every answer the phone is given in the exchange is the television's reply, and it is an acceptance. */
  lemma AnswersAreReplies(x: Setting, es: seq<Event>)
    requires Fits(x) && Valid(x, Init(x), es)
    ensures
      var j := Run(x, Init(x), es);
      var h, role := x.honest, PeerRole(x.honest.phoneRole);
      && (j.at == 2 ==>
            HelloOf(j.wire) == Phone.HelloBody(Some(RemoteProof(x.phone.secret, h.hash, role)),
                                               Some(NonceCommit(x.phone.secret, h.hash, h.nonceTv))))
      && (j.at == 4 ==> NonceOf(j.wire) == Phone.NonceBody(Some(h.nonceTv)))
      && (j.at == 9 ==> PinOf(j.wire) == Phone.PinBody(Some(PinProof(x.phone.secret, h.hash, role, h.pin))))
      && (j.at == 11 ==> AckOf(j.wire) == Phone.AckOk)
  {
    RunInv(x, Init(x), es);
  }

  // ---- and it can always be completed --------------------------------------------------------------

  /** The devices have met, and the code has not expired unheard. */
  predicate Underway(x: Setting, j: Joint) {
    j.tvSocket.Some? && j.phoneSocket.Some? && (j.at <= 1 ==> j.tv.clock < x.tv.expiresAt)
  }

  /** The next step of the exchange; behind its last one, what the television put off. */
  function Next(j: Joint): Event {
    if j.at >= ACKNOWLEDGED then TvAlone(TV.ChoreFires)
    else if j.at == 8 && j.tv.pin.waiting then ViewerTypes
    else Exchange
  }

  function Left(j: Joint): nat {
    if j.at > ACKNOWLEDGED then 0 else 2 * (ACKNOWLEDGED - j.at) + (if j.tv.pin.waiting then 1 else 0)
  }

  predicate Closer(j: Joint, t: Joint) {
    Left(t) < Left(j) || (Left(t) == Left(j) && |t.tv.net.chores| < |j.tv.net.chores|)
  }

  predicate Over(j: Joint) { j.at == ACKNOWLEDGED && j.phone.settled.Some? && j.tv.settled.Some? }

  lemma PhoneIsReady(x: Setting, j: Joint)
    requires Fits(x) && Inv(x, j) && Underway(x, j) && j.at < ACKNOWLEDGED && !TvTurn(j.at)
    ensures Ready(x, j)
  {
    assert Phone.AttemptOk(j.phone, j.phoneSocket.value);
  }

  lemma TvIsReady(x: Setting, j: Joint)
    requires Fits(x) && Inv(x, j) && Underway(x, j) && TvTurn(j.at) && !(j.at == 8 && j.tv.pin.waiting)
    ensures Ready(x, j)
  {}

  lemma NextIsEnabled(x: Setting, j: Joint)
    requires Fits(x) && Inv(x, j) && Underway(x, j) && !Over(j)
    ensures Enabled(x, j, Next(j))
  {
    if Next(j) == Exchange {
      if TvTurn(j.at) { TvIsReady(x, j); } else { PhoneIsReady(x, j); }
    }
  }

  lemma ExchangeIsCloser(x: Setting, j: Joint)
    requires Fits(x) && Inv(x, j) && Underway(x, j) && Ready(x, j) && Next(j) == Exchange
    ensures Closer(j, Exchanged(x, j)) && Underway(x, Exchanged(x, j))
  {
    ExchangeKeeps(x, j);
  }

  lemma NextAdvances(x: Setting, j: Joint)
    requires Fits(x) && Inv(x, j) && Underway(x, j) && !Over(j)
    ensures Enabled(x, j, Next(j))
    ensures
      var t := Step(x, j, Next(j));
      Inv(x, t) && Underway(x, t) && Closer(j, t)
  {
    NextIsEnabled(x, j);
    StepInv(x, j, Next(j));
    if Next(j) == Exchange { ExchangeIsCloser(x, j); }
    if Next(j) == ViewerTypes { TypingKeeps(x, j); }
  }

  predicate Finishes(x: Setting, j: Joint, es: seq<Event>) {
    Valid(x, j, es) && Over(Run(x, j, es))
  }

  lemma FinishesFrom(x: Setting, j: Joint, e: Event, es: seq<Event>)
    requires Enabled(x, j, e) && Finishes(x, Step(x, j, e), es)
    ensures Finishes(x, j, [e] + es)
  {
    assert ([e] + es)[1..] == es;
  }

  lemma {:induction false} CanFinish(x: Setting, j: Joint)
    requires Fits(x) && Inv(x, j) && Underway(x, j)
    ensures exists es :: Finishes(x, j, es)
    decreases Left(j), |j.tv.net.chores|
  {
    if Over(j) {
      assert Finishes(x, j, []);
    } else {
      NextAdvances(x, j);
      CanFinishAfter(x, j, Next(j));
    }
  }

  lemma {:induction false} CanFinishAfter(x: Setting, j: Joint, e: Event)
    requires Fits(x) && Enabled(x, j, e) && Inv(x, Step(x, j, e)) && Underway(x, Step(x, j, e))
             && Closer(j, Step(x, j, e))
    ensures exists es :: Finishes(x, j, es)
    decreases Left(j), |j.tv.net.chores|, 0
  {
    CanFinish(x, Step(x, j, e));
    var es :| Finishes(x, Step(x, j, e), es);
    FinishesFrom(x, j, e, es);
  }

  /** Whatever has happened beside it so far, an exchange under way can be gone on with until both have succeeded. */
  lemma CanAlwaysComplete(x: Setting, es: seq<Event>)
    requires Fits(x) && Valid(x, Init(x), es) && Underway(x, Run(x, Init(x), es))
    ensures exists more :: Finishes(x, Run(x, Init(x), es), more)
  {
    RunInv(x, Init(x), es);
    CanFinish(x, Run(x, Init(x), es));
  }

  /** From the start, with a code that has not expired, there is such a run. */
  lemma HandoverHappens(x: Setting)
    requires Fits(x) && x.tv.start < x.tv.expiresAt
    ensures exists es :: Finishes(x, Init(x), es)
  {
    var a := Step(x, Init(x), TvMeets);
    var b := Step(x, a, PhoneMeets);
    StepInv(x, Init(x), TvMeets);
    StepInv(x, a, PhoneMeets);
    CanFinish(x, b);
    var es :| Finishes(x, b, es);
    FinishesFrom(x, a, PhoneMeets, es);
    FinishesFrom(x, Init(x), TvMeets, [PhoneMeets] + es);
  }
}
