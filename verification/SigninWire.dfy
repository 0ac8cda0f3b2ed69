/**
 What the two sign-in roles exchange (core/remote.js, and the wire helpers of sdk/signin-pair.js).

 A MAC is ideal: it is the pair of its key and its message, so equal MACs have equal inputs. The
 message is a plain concatenation of fields, as in the source; the lemmas show that the concatenation
 can be split only one way, within each kind of MAC and across all four of them.
 */
module SigninWire {
  import opened Wrappers

  type Bytes = string

  datatype Role = Initiator | Responder

  datatype Mac = Mac(key: Bytes, message: Bytes)

  /** What the handshake gives one end of a connection: the transcript hash and this end's role. */
  datatype Link = Link(hash: Bytes, role: Role)

  const PROOF_LABEL: Bytes := "aliran-remote-proof-v1"
  const NONCE_COMMIT_LABEL: Bytes := "aliran-remote-nonce-commit-v1"
  const SAS_LABEL: Bytes := "aliran-remote-sas-nonce-v1"
  const PIN_LABEL: Bytes := "aliran-remote-pin-v1"
  const NONCE_BYTES := 32
  const PIN_DIGITS := 4
  const MAX_SIGNIN_CONNECTIONS := 8

  /** The reasons of SIGNIN_PAIR_ERRORS; `PinWrong` is its `pin`. */
  datatype Reason =
    | Malformed | Timeout | Expired | Used | Busy | Unauthorized | Mismatch | PinWrong
    | Cancelled | Refused | Version | Flooded

  predicate IsHash(h: Bytes) { |h| == 32 || |h| == 64 }

  predicate IsNonce(n: Bytes) { |n| == NONCE_BYTES }

  predicate IsDigit(c: char) { '0' <= c <= '9' }

  predicate IsPin(p: string) { |p| == PIN_DIGITS && forall i :: 0 <= i < |p| ==> IsDigit(p[i]) }

  function RoleBytes(r: Role): Bytes {
    match r
    case Initiator => "initiator"
    case Responder => "responder"
  }

  function PeerRole(r: Role): Role {
    match r
    case Initiator => Responder
    case Responder => Initiator
  }

  function RemoteProof(secret: Bytes, hash: Bytes, role: Role): Mac {
    Mac(secret, PROOF_LABEL + RoleBytes(role) + hash)
  }

  function NonceCommit(secret: Bytes, hash: Bytes, nonce: Bytes): Mac {
    Mac(secret, NONCE_COMMIT_LABEL + nonce + hash)
  }

  function PinProof(secret: Bytes, hash: Bytes, role: Role, pin: string): Mac {
    Mac(secret, PIN_LABEL + RoleBytes(role) + pin + hash)
  }

  /** One block of the stream the compared digits are drawn from. */
  function SasBlock(secret: Bytes, hash: Bytes, counter: char, initiatorNonce: Bytes, responderNonce: Bytes): Mac {
    Mac(secret, SAS_LABEL + [counter] + initiatorNonce + responderNonce + hash)
  }

  /** The digits a screen shows are a function of the first block's inputs; two screens agree when these do. */
  function CommittedSas(secret: Bytes, hash: Bytes, initiatorNonce: Bytes, responderNonce: Bytes): Mac {
    SasBlock(secret, hash, 0 as char, initiatorNonce, responderNonce)
  }

  function SasDigits(secret: Bytes, link: Link, mine: Bytes, theirs: Bytes): Mac {
    if link.role.Initiator? then CommittedSas(secret, link.hash, mine, theirs)
    else CommittedSas(secret, link.hash, theirs, mine)
  }

  // ---- framing --------------------------------------------------------------------------------

  lemma SplitFirst(a: Bytes, b: Bytes, c: Bytes, d: Bytes)
    requires |a| == |c| && a + b == c + d
    ensures a == c && b == d
  {
    assert (a + b)[..|a|] == a && (c + d)[..|a|] == c;
    assert (a + b)[|a|..] == b && (c + d)[|a|..] == d;
  }

  lemma RemoteProofBinds(k: Bytes, k': Bytes, h: Bytes, h': Bytes, r: Role, r': Role)
    ensures RemoteProof(k, h, r) == RemoteProof(k', h', r') <==> k == k' && h == h' && r == r'
  {
    if RemoteProof(k, h, r) == RemoteProof(k', h', r') {
      SplitFirst(PROOF_LABEL + RoleBytes(r), h, PROOF_LABEL + RoleBytes(r'), h');
      SplitFirst(PROOF_LABEL, RoleBytes(r), PROOF_LABEL, RoleBytes(r'));
      assert RoleBytes(r)[0] == RoleBytes(r')[0];
    }
  }

  lemma NonceCommitBinds(k: Bytes, k': Bytes, h: Bytes, h': Bytes, n: Bytes, n': Bytes)
    requires IsNonce(n) && IsNonce(n')
    ensures NonceCommit(k, h, n) == NonceCommit(k', h', n') <==> k == k' && h == h' && n == n'
  {
    if NonceCommit(k, h, n) == NonceCommit(k', h', n') {
      SplitFirst(NONCE_COMMIT_LABEL + n, h, NONCE_COMMIT_LABEL + n', h');
      SplitFirst(NONCE_COMMIT_LABEL, n, NONCE_COMMIT_LABEL, n');
    }
  }

  lemma PinProofBinds(k: Bytes, k': Bytes, h: Bytes, h': Bytes, r: Role, r': Role, p: string, p': string)
    requires IsPin(p) && IsPin(p')
    ensures PinProof(k, h, r, p) == PinProof(k', h', r', p') <==> k == k' && h == h' && r == r' && p == p'
  {
    if PinProof(k, h, r, p) == PinProof(k', h', r', p') {
      SplitFirst(PIN_LABEL + RoleBytes(r) + p, h, PIN_LABEL + RoleBytes(r') + p', h');
      SplitFirst(PIN_LABEL + RoleBytes(r), p, PIN_LABEL + RoleBytes(r'), p');
      SplitFirst(PIN_LABEL, RoleBytes(r), PIN_LABEL, RoleBytes(r'));
      assert RoleBytes(r)[0] == RoleBytes(r')[0];
    }
  }

  lemma SasBinds(k: Bytes, h: Bytes, h': Bytes, i: Bytes, i': Bytes, r: Bytes, r': Bytes)
    requires IsNonce(i) && IsNonce(i') && IsNonce(r) && IsNonce(r')
    ensures CommittedSas(k, h, i, r) == CommittedSas(k, h', i', r') <==> h == h' && i == i' && r == r'
  {
    if CommittedSas(k, h, i, r) == CommittedSas(k, h', i', r') {
      var l := SAS_LABEL + [0 as char];
      SplitFirst(l + i + r, h, l + i' + r', h');
      SplitFirst(l + i, r, l + i', r');
      SplitFirst(l, i, l, i');
    }
  }

  datatype Kind = MutualKind | CommitKind | SasKind | PinKind

  function LabelOf(k: Kind): Bytes {
    match k
    case MutualKind => PROOF_LABEL
    case CommitKind => NONCE_COMMIT_LABEL
    case SasKind => SAS_LABEL
    case PinKind => PIN_LABEL
  }

  /** No MAC of one kind is ever a MAC of another: the labels part at their fifteenth or sixteenth character. */
  lemma KindsAreDisjoint(a: Kind, b: Kind, restA: Bytes, restB: Bytes)
    requires LabelOf(a) + restA == LabelOf(b) + restB
    ensures a == b
  {
    var m, n := LabelOf(a) + restA, LabelOf(b) + restB;
    assert m[14] == LabelOf(a)[14] && m[15] == LabelOf(a)[15];
    assert n[14] == LabelOf(b)[14] && n[15] == LabelOf(b)[15];
  }

  /**
   The compared digits agree exactly when nothing sits between the two ends: two ends of connections
   under one code show the same digits, whichever of them is the initiator, if and only if they hold
   one transcript and each other's nonce.
   */
  lemma ScreensAgree(secret: Bytes, a: Link, b: Link, mineA: Bytes, theirsA: Bytes, mineB: Bytes, theirsB: Bytes)
    requires a.role == PeerRole(b.role)
    requires IsNonce(mineA) && IsNonce(theirsA) && IsNonce(mineB) && IsNonce(theirsB)
    ensures SasDigits(secret, a, mineA, theirsA) == SasDigits(secret, b, mineB, theirsB)
      <==> a.hash == b.hash && theirsA == mineB && theirsB == mineA
  {
    if a.role.Initiator? {
      SasBinds(secret, a.hash, b.hash, mineA, theirsB, theirsA, mineB);
    } else {
      SasBinds(secret, a.hash, b.hash, theirsA, mineB, mineA, theirsB);
    }
  }

  // ---- the payload ----------------------------------------------------------------------------

  datatype Payload = Payload(username: string, priv: string, authPriv: string, panelPubKey: string)

  predicate IsHexDigit(c: char) { IsDigit(c) || 'a' <= c <= 'f' || 'A' <= c <= 'F' }

  predicate IsHex(s: string, bytes: nat) {
    |s| == 2 * bytes && forall i :: 0 <= i < |s| ==> IsHexDigit(s[i])
  }

  predicate IsWordChar(c: char) { IsDigit(c) || 'a' <= c <= 'z' || 'A' <= c <= 'Z' }

  predicate IsUsername(u: string) {
    && 1 <= |u| <= 64 && IsWordChar(u[0])
    && forall i :: 1 <= i < |u| ==> IsWordChar(u[i]) || u[i] in "_.-"
  }

  function LowerChar(c: char): char {
    if 'A' <= c <= 'Z' then c + 32 as char else c
  }

  function Lower(s: string): (t: string)
    ensures |t| == |s| && forall i :: 0 <= i < |s| ==> t[i] == LowerChar(s[i])
  {
    seq(|s|, i requires 0 <= i < |s| => LowerChar(s[i]))
  }

  function NormalizePayload(p: Payload): Option<Payload> {
    if !IsUsername(p.username) then None
    else if !IsHex(p.priv, 32) || !IsHex(p.authPriv, 64) || !IsHex(p.panelPubKey, 32) then None
    else Some(Payload(p.username, Lower(p.priv), Lower(p.authPriv), Lower(p.panelPubKey)))
  }

  /** What one role sends after normalizing, the other role normalizes to the same four fields. */
  lemma NormalizedPayloadIsStable(p: Payload)
    requires NormalizePayload(p).Some?
    ensures NormalizePayload(NormalizePayload(p).value) == NormalizePayload(p)
  {
    var q := NormalizePayload(p).value;
    assert Lower(q.priv) == q.priv && Lower(q.authPriv) == q.authPriv && Lower(q.panelPubKey) == q.panelPubKey;
  }

  predicate IsHexOf(s: string, length: nat) {
    && |s| == length
    && forall i :: 0 <= i < |s| ==> '0' <= s[i] <= '9' || 'a' <= s[i] <= 'f' || 'A' <= s[i] <= 'F'
  }

  /**
   What is accepted: a name of up to 64 word characters, dots, dashes and underscores, and keys of 32, 64 and
   32 bytes.
   */
  lemma PayloadAcceptedIff(p: Payload)
    ensures NormalizePayload(p).Some? <==>
      && 0 < |p.username| <= 64
      && (forall i :: 0 <= i < |p.username| ==>
            var c := p.username[i];
            || 'a' <= c <= 'z' || 'A' <= c <= 'Z' || '0' <= c <= '9'
            || (i > 0 && (c == '_' || c == '.' || c == '-')))
      && IsHexOf(p.priv, 64) && IsHexOf(p.authPriv, 128) && IsHexOf(p.panelPubKey, 64)
  {
    assert "_.-"[0] == '_' && "_.-"[1] == '.' && "_.-"[2] == '-';
    assert forall c: char :: c in "_.-" <==> c == '_' || c == '.' || c == '-';
  }

  predicate SameButCase(s: string, t: string) {
    |s| == |t| && forall i :: 0 <= i < |s| ==> LowerChar(s[i]) == LowerChar(t[i])
  }

  /** Two payloads for one name whose keys differ only in the case of their digits come to the same one. */
  lemma KeyCaseDoesNotMatter(p: Payload, q: Payload)
    requires p.username == q.username && SameButCase(p.priv, q.priv) && SameButCase(p.authPriv, q.authPriv)
    requires SameButCase(p.panelPubKey, q.panelPubKey)
    requires NormalizePayload(p).Some? && NormalizePayload(q).Some?
    ensures NormalizePayload(p) == NormalizePayload(q) && NormalizePayload(p).value.username == p.username
    ensures SameButCase(NormalizePayload(p).value.priv, p.priv)
  {
    assert Lower(p.priv) == Lower(q.priv) && Lower(p.authPriv) == Lower(q.authPriv);
    assert Lower(p.panelPubKey) == Lower(q.panelPubKey);
  }
}
