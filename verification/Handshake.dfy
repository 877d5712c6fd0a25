/** Mutual authentication of two nodes over a connection, with symbolic signatures: a
    signature is the key and the content it was made over, and whoever lacks the key can
    only pass on signatures that were made before. */
module Handshake {
  import opened Base

  type Key = nat
  type Challenge = seq<nat>

  const CHALLENGE_LEN := 32

  datatype Kind = Discovery | OtherKind

  datatype Payload = Payload(publicKey: Option<Key>, challenge: Option<Challenge>, proofFor: Option<Challenge>)

  /** What a signature covers. */
  datatype Content = Content(kind: Kind, origin: NodeId, payload: Payload)

  datatype Signature = Signature(key: Key, over: Content)

  datatype Message = Message(content: Content, signature: Option<Signature>)

  datatype HandshakeError =
    | NoField | IdentityMismatch | NotDiscovery | OtherIdentity | BadSignature
    | OwnIdentity | ChallengeLength(length: nat) | NotEchoed

  datatype Result<+T> = Ok(value: T) | Err(error: HandshakeError)

  /** The hash of a public key: nodes are named by it. */
  type IdOf = Key -> NodeId


  // ---- the messages and the checks ----------------------------------------------------------

  function HelloContent(key: Key, challenge: Challenge, idOf: IdOf): Content {
    Content(Discovery, idOf(key), Payload(Some(key), Some(challenge), None))
  }

  function ProofContent(key: Key, theirs: Challenge, idOf: IdOf): Content {
    Content(Discovery, idOf(key), Payload(None, None, Some(theirs)))
  }

  function Sign(key: Key, content: Content): Message {
    Message(content, Some(Signature(key, content)))
  }

  predicate Verifies(m: Message, key: Key) {
    m.signature == Some(Signature(key, m.content))
  }

  /** A signed Discovery from the expected identity. */
  function VerifyFrame(m: Message, key: Key, expected: NodeId): Option<HandshakeError> {
    if m.content.kind != Discovery then Some(NotDiscovery)
    else if m.content.origin != expected then Some(OtherIdentity)
    else if !Verifies(m, key) then Some(BadSignature)
    else None
  }

  datatype Hello = Hello(key: Key, challenge: Challenge)

  function CheckHello(m: Message, own: Key, idOf: IdOf): Result<Hello> {
    if m.content.payload.publicKey.None? then Err(NoField)
    else
      var key := m.content.payload.publicKey.value;
      if idOf(key) != m.content.origin then Err(IdentityMismatch)
      else match VerifyFrame(m, key, idOf(key))
        case Some(e) => Err(e)
        case None =>
          if idOf(key) == idOf(own) then Err(OwnIdentity)
          else match m.content.payload.challenge
            case None => Err(NoField)
            case Some(theirs) =>
              if |theirs| != CHALLENGE_LEN then Err(ChallengeLength(|theirs|)) else Ok(Hello(key, theirs))
  }

  function CheckProof(m: Message, peer: Key, challenge: Challenge, idOf: IdOf): Option<HandshakeError> {
    match VerifyFrame(m, peer, idOf(peer))
    case Some(e) => Some(e)
    case None =>
      match m.content.payload.proofFor
      case None => Some(NoField)
      case Some(echoed) => if echoed != challenge then Some(NotEchoed) else None
  }

  // ---- one side of a connection ------------------------------------------------------------------

  datatype Stage = AwaitHello | AwaitProof(peer: Key) | Accepted(peer: Key) | Abandoned(error: HandshakeError)

  /** A side: its own key, its challenge, and how far it has come. */
  datatype Side = Side(own: Key, challenge: Challenge, stage: Stage)

  /** The side after a message, and what it signs in answer. */
  function OnMessage(s: Side, m: Message, idOf: IdOf): (Side, Option<Content>) {
    match s.stage
    case AwaitHello =>
      (match CheckHello(m, s.own, idOf)
       case Err(e) => (s.(stage := Abandoned(e)), None)
       case Ok(hello) => (s.(stage := AwaitProof(hello.key)), Some(ProofContent(s.own, hello.challenge, idOf))))
    case AwaitProof(peer) =>
      (match CheckProof(m, peer, s.challenge, idOf)
       case Some(e) => (s.(stage := Abandoned(e)), None)
       case None => (s.(stage := Accepted(peer)), None))
    case _ => (s, None)
  }

  class Session {
    const own: Key
    const challenge: Challenge
    var stage: Stage

    function View(): Side
      reads this
    {
      Side(own, challenge, stage)
    }

    constructor (own: Key, challenge: Challenge)
      ensures View() == Side(own, challenge, AwaitHello)
    {
      this.own, this.challenge, stage := own, challenge, AwaitHello;
    }

    method Receive(m: Message, idOf: IdOf) returns (answer: Option<Message>)
      modifies this
      ensures var (s, content) := OnMessage(old(View()), m, idOf);
              View() == s && answer == if content.None? then None else Some(Sign(own, content.value))
    {
      answer := None;
      match stage {
        case AwaitHello =>
          var checked := CheckHello(m, own, idOf);
          if checked.Err? {
            stage := Abandoned(checked.error);
            return;
          }
          stage := AwaitProof(checked.value.key);
          answer := Some(Sign(own, ProofContent(own, checked.value.challenge, idOf)));
        case AwaitProof(peer) =>
          var error := CheckProof(m, peer, challenge, idOf);
          stage := if error.Some? then Abandoned(error.value) else Accepted(peer);
        case _ =>
      }
    }
  }

  // ---- all connections at once, with an active network ------------------------------------------------

  datatype Event =
    | Generated(session: nat, challenge: Challenge)
    | Signed(signature: Signature)
    | Authenticated(session: nat, peer: Key)

  /** Every session of every node, and everything that happened, in order. `born` is when
      a session generated its challenge. */
  datatype Party = Party(side: Side, born: nat)

  datatype World = World(sessions: map<nat, Party>, trace: seq<Event>)

  datatype Move =
    | Open(session: nat, own: Key, challenge: Challenge)
    | Take(session: nat, message: Message)
    | SignElsewhere(key: Key, content: Content)

  predicate WasSigned(trace: seq<Event>, s: Signature) {
    exists i :: 0 <= i < |trace| && trace[i] == Signed(s)
  }

  /** What the network can deliver: any message at all, but a signature by a key that is
      not compromised only if its owner made it earlier. */
  ghost predicate Deliverable(trace: seq<Event>, m: Message, compromised: set<Key>) {
    m.signature.Some? ==> m.signature.value.key in compromised || WasSigned(trace, m.signature.value)
  }

  /** A challenge no signature has answered. */
  ghost predicate IsFresh(trace: seq<Event>, challenge: Challenge) {
    forall i :: 0 <= i < |trace| && trace[i].Signed? ==> trace[i].signature.over.payload.proofFor != Some(challenge)
  }

  ghost predicate CanMove(w: World, move: Move, compromised: set<Key>) {
    match move
    case Open(id, own, challenge) => id !in w.sessions && |challenge| == CHALLENGE_LEN && IsFresh(w.trace, challenge)
    case Take(id, m) => id in w.sessions && Deliverable(w.trace, m, compromised)
    case SignElsewhere(_, _) => true
  }

  function Answered(trace: seq<Event>, own: Key, content: Option<Content>): seq<Event> {
    match content
    case None => trace
    case Some(c) => trace + [Signed(Signature(own, c))]
  }

  function Noted(trace: seq<Event>, id: nat, before: Stage, after: Stage): seq<Event> {
    if after.Accepted? && before != after then trace + [Authenticated(id, after.peer)] else trace
  }

  ghost function Moved(w: World, move: Move, idOf: IdOf, compromised: set<Key>): World
    requires CanMove(w, move, compromised)
  {
    match move
    case Open(id, own, challenge) =>
      World(w.sessions[id := Party(Side(own, challenge, AwaitHello), |w.trace|)],
            w.trace + [Generated(id, challenge), Signed(Signature(own, HelloContent(own, challenge, idOf)))])
    case Take(id, m) =>
      var p := w.sessions[id];
      var (side, content) := OnMessage(p.side, m, idOf);
      World(w.sessions[id := p.(side := side)], Noted(Answered(w.trace, p.side.own, content), id, p.side.stage, side.stage))
    case SignElsewhere(key, content) => w.(trace := w.trace + [Signed(Signature(key, content))])
  }

  ghost predicate IsProtocolRun(moves: seq<Move>, idOf: IdOf, compromised: set<Key>)
    decreases |moves|, 0
  {
    moves == [] ||
    (var front := moves[..|moves| - 1];
     IsProtocolRun(front, idOf, compromised)
     && CanMove(Reached(front, idOf, compromised), moves[|moves| - 1], compromised))
  }

  ghost function Reached(moves: seq<Move>, idOf: IdOf, compromised: set<Key>): World
    requires IsProtocolRun(moves, idOf, compromised)
    decreases |moves|, 1
  {
    if moves == [] then World(map[], [])
    else Moved(Reached(moves[..|moves| - 1], idOf, compromised), moves[|moves| - 1], idOf, compromised)
  }

  // ---- recent aliveness ---------------------------------------------------------------------------------

  predicate IsProof(e: Event, peer: Key, challenge: Challenge, idOf: IdOf) {
    && e.Signed? && e.signature.key == peer
    && e.signature.over.kind == Discovery && e.signature.over.origin == idOf(peer)
    && e.signature.over.payload.proofFor == Some(challenge)
  }

  /** The peer, being another node, signed a proof of this session's challenge after the
      challenge was generated. */
  ghost predicate RecentlyAlive(trace: seq<Event>, id: nat, p: Party, peer: Key, idOf: IdOf) {
    && idOf(peer) != idOf(p.side.own)
    && p.born < |trace| && trace[p.born] == Generated(id, p.side.challenge)
    && exists k :: p.born < k < |trace| && IsProof(trace[k], peer, p.side.challenge, idOf)
  }

  /** Each session's challenge was generated when it was born and answered only later; no
      session has got past its own identity; and every session that accepted an
      uncompromised peer has its proof. */
  ghost predicate SessionInv(trace: seq<Event>, id: nat, p: Party, idOf: IdOf, compromised: set<Key>) {
    && p.born < |trace| && trace[p.born] == Generated(id, p.side.challenge)
    && (forall k :: 0 <= k < |trace| && trace[k].Signed? && trace[k].signature.over.payload.proofFor == Some(p.side.challenge) ==>
          k > p.born)
    && (p.side.stage.AwaitProof? ==> idOf(p.side.stage.peer) != idOf(p.side.own))
    && (p.side.stage.Accepted? ==> idOf(p.side.stage.peer) != idOf(p.side.own))
    && (p.side.stage.Accepted? && p.side.stage.peer !in compromised ==>
          RecentlyAlive(trace, id, p, p.side.stage.peer, idOf))
  }

  ghost predicate WorldInv(w: World, idOf: IdOf, compromised: set<Key>) {
    && (forall id :: id in w.sessions ==> SessionInv(w.trace, id, w.sessions[id], idOf, compromised))
    && (forall i :: 0 <= i < |w.trace| && w.trace[i].Authenticated? ==>
          var e := w.trace[i]; e.session in w.sessions && w.sessions[e.session].side.stage == Accepted(e.peer))
  }

  /** Later events leave what holds of a session standing. */
  lemma {:induction false} TraceGrows(trace: seq<Event>, more: seq<Event>, id: nat, p: Party, idOf: IdOf,
          compromised: set<Key>)
    requires SessionInv(trace, id, p, idOf, compromised)
    ensures SessionInv(trace + more, id, p, idOf, compromised)
  {
    var all := trace + more;
    forall k | 0 <= k < |all| && all[k].Signed? && all[k].signature.over.payload.proofFor == Some(p.side.challenge) ensures k > p.born {
      if k < |trace| { assert all[k] == trace[k]; }
    }
    if p.side.stage.Accepted? && p.side.stage.peer !in compromised {
      var k :| p.born < k < |trace| && IsProof(trace[k], p.side.stage.peer, p.side.challenge, idOf);
      assert IsProof(all[k], p.side.stage.peer, p.side.challenge, idOf);
    }
  }

  /** A proof that checks out, from an uncompromised peer, was signed by it. */
  lemma {:induction false} CheckedProofWasSigned(trace: seq<Event>, id: nat, p: Party, m: Message, idOf: IdOf,
          compromised: set<Key>)
    requires SessionInv(trace, id, p, idOf, compromised) && p.side.stage.AwaitProof?
    requires Deliverable(trace, m, compromised)
    requires CheckProof(m, p.side.stage.peer, p.side.challenge, idOf).None? && p.side.stage.peer !in compromised
    ensures RecentlyAlive(trace, id, p, p.side.stage.peer, idOf)
  {
    var i :| 0 <= i < |trace| && trace[i] == Signed(m.signature.value);
    assert IsProof(trace[i], p.side.stage.peer, p.side.challenge, idOf);
  }

  lemma {:induction false} TakeKeepsSession(trace: seq<Event>, id: nat, p: Party, m: Message, idOf: IdOf,
          compromised: set<Key>)
    requires SessionInv(trace, id, p, idOf, compromised) && Deliverable(trace, m, compromised)
    ensures SessionInv(trace, id, p.(side := OnMessage(p.side, m, idOf).0), idOf, compromised)
  {
    var p' := p.(side := OnMessage(p.side, m, idOf).0);
    if p.side.stage.AwaitProof? && p'.side.stage.Accepted? && p'.side.stage.peer !in compromised {
      CheckedProofWasSigned(trace, id, p, m, idOf, compromised);
      var k :| p.born < k < |trace| && IsProof(trace[k], p.side.stage.peer, p.side.challenge, idOf);
      assert IsProof(trace[k], p'.side.stage.peer, p'.side.challenge, idOf);
    }
  }

  lemma {:induction false} OpenKeepsInv(w: World, id: nat, own: Key, challenge: Challenge, idOf: IdOf,
          compromised: set<Key>)
    requires WorldInv(w, idOf, compromised) && CanMove(w, Open(id, own, challenge), compromised)
    ensures WorldInv(Moved(w, Open(id, own, challenge), idOf, compromised), idOf, compromised)
  {
    var w' := Moved(w, Open(id, own, challenge), idOf, compromised);
    var more := [Generated(id, challenge), Signed(Signature(own, HelloContent(own, challenge, idOf)))];
    assert w'.trace == w.trace + more;
    forall x | x in w'.sessions ensures SessionInv(w'.trace, x, w'.sessions[x], idOf, compromised) {
      if x == id {
        assert w'.trace[|w.trace|] == more[0];
        assert forall k :: 0 <= k < |w.trace| ==> w'.trace[k] == w.trace[k];
      } else {
        TraceGrows(w.trace, more, x, w.sessions[x], idOf, compromised);
      }
    }
    forall i | 0 <= i < |w'.trace| && w'.trace[i].Authenticated?
      ensures w'.trace[i].session in w'.sessions && w'.sessions[w'.trace[i].session].side.stage == Accepted(w'.trace[i].peer)
    {
      assert i < |w.trace| && w'.trace[i] == w.trace[i];
    }
  }

  /** A message moves its own session only; the trace grows by what it signed and noted. */
  lemma {:induction false} TakeKeepsInv(w: World, id: nat, m: Message, idOf: IdOf, compromised: set<Key>)
    requires WorldInv(w, idOf, compromised) && CanMove(w, Take(id, m), compromised)
    ensures WorldInv(Moved(w, Take(id, m), idOf, compromised), idOf, compromised)
  {
    var w' := Moved(w, Take(id, m), idOf, compromised);
    var p := w.sessions[id];
    var p' := w'.sessions[id];
    var more := w'.trace[|w.trace|..];
    assert w'.trace == w.trace + more;
    TakeKeepsSession(w.trace, id, p, m, idOf, compromised);
    forall x | x in w'.sessions ensures SessionInv(w'.trace, x, w'.sessions[x], idOf, compromised) {
      TraceGrows(w.trace, more, x, w'.sessions[x], idOf, compromised);
    }
    forall i | 0 <= i < |w'.trace| && w'.trace[i].Authenticated?
      ensures w'.trace[i].session in w'.sessions && w'.sessions[w'.trace[i].session].side.stage == Accepted(w'.trace[i].peer)
    {
      if i < |w.trace| {
        assert w'.trace[i] == w.trace[i];
      }
    }
  }

  lemma {:induction false} SignKeepsInv(w: World, key: Key, content: Content, idOf: IdOf, compromised: set<Key>)
    requires WorldInv(w, idOf, compromised)
    ensures WorldInv(Moved(w, SignElsewhere(key, content), idOf, compromised), idOf, compromised)
  {
    var w' := Moved(w, SignElsewhere(key, content), idOf, compromised);
    forall x | x in w'.sessions ensures SessionInv(w'.trace, x, w'.sessions[x], idOf, compromised) {
      TraceGrows(w.trace, [Signed(Signature(key, content))], x, w.sessions[x], idOf, compromised);
    }
  }

  lemma {:induction false} RunKeepsWorld(moves: seq<Move>, idOf: IdOf, compromised: set<Key>)
    requires IsProtocolRun(moves, idOf, compromised)
    ensures WorldInv(Reached(moves, idOf, compromised), idOf, compromised)
    decreases |moves|
  {
    if moves != [] {
      var w := Reached(moves[..|moves| - 1], idOf, compromised);
      RunKeepsWorld(moves[..|moves| - 1], idOf, compromised);
      hide WorldInv, Moved, OnMessage;
      match moves[|moves| - 1]
      case Open(id, own, challenge) => OpenKeepsInv(w, id, own, challenge, idOf, compromised);
      case Take(id, m) => TakeKeepsInv(w, id, m, idOf, compromised);
      case SignElsewhere(key, content) => SignKeepsInv(w, key, content, idOf, compromised);
    }
  }

  /** Whatever the network does - replay, reflect, interleave sessions, sign with
      compromised keys - a node that authenticates a peer whose key is not compromised has
      authenticated another node, which signed a proof of this very challenge after the
      challenge was generated. */
  lemma {:induction false} RecentAliveness(moves: seq<Move>, idOf: IdOf, compromised: set<Key>, i: nat)
    requires IsProtocolRun(moves, idOf, compromised)
    requires var w := Reached(moves, idOf, compromised);
             i < |w.trace| && w.trace[i].Authenticated? && w.trace[i].peer !in compromised
    ensures var w := Reached(moves, idOf, compromised);
            var e := w.trace[i];
            e.session in w.sessions && RecentlyAlive(w.trace, e.session, w.sessions[e.session], e.peer, idOf)
  {
    RunKeepsWorld(moves, idOf, compromised);
  }

  // ---- whose proof it was ------------------------------------------------------------------------------

  /** A handshake proof. */
  predicate CarriesProof(content: Content) {
    content.kind == Discovery && content.payload.proofFor.Some?
  }

  /** Uncompromised keys sign handshake proofs in handshakes only. */
  ghost predicate ProofsAreProtocol(moves: seq<Move>, compromised: set<Key>) {
    forall n :: 0 <= n < |moves| && moves[n].SignElsewhere? && moves[n].key !in compromised ==> !CarriesProof(moves[n].content)
  }

  /** The side, still awaiting a hello, verifies one that carries this challenge. */
  ghost predicate VerifiesHello(w: World, move: Move, peer: Key, challenge: Challenge, idOf: IdOf) {
    && move.Take? && move.session in w.sessions
    && var side := w.sessions[move.session].side;
    && side.own == peer && side.stage.AwaitHello?
    && var hello := CheckHello(move.message, peer, idOf);
    && hello.Ok? && hello.value.challenge == challenge
  }

  /** The n-th move, made when the trace was k long, had the peer verify a hello that carries
      this challenge. */
  ghost predicate RanProtocol(moves: seq<Move>, n: nat, k: nat, peer: Key, challenge: Challenge, idOf: IdOf,
          compromised: set<Key>)
  {
    && n < |moves| && IsProtocolRun(moves[..n], idOf, compromised)
    && var w := Reached(moves[..n], idOf, compromised);
    && |w.trace| == k && VerifiesHello(w, moves[n], peer, challenge, idOf)
  }

  /** The only proof a move of the protocol signs is its own side's, for a hello just verified. */
  lemma {:induction false} MoveSigns(w: World, move: Move, idOf: IdOf, compromised: set<Key>, k: nat, peer: Key,
          challenge: Challenge)
    requires CanMove(w, move, compromised)
    requires move.SignElsewhere? && move.key !in compromised ==> !CarriesProof(move.content)
    requires var w' := Moved(w, move, idOf, compromised);
             |w.trace| <= k < |w'.trace| && IsProof(w'.trace[k], peer, challenge, idOf) && peer !in compromised
    ensures k == |w.trace| && VerifiesHello(w, move, peer, challenge, idOf)
  {
  }

  lemma {:induction false} TraceIsKept(w: World, move: Move, idOf: IdOf, compromised: set<Key>)
    requires CanMove(w, move, compromised)
    ensures w.trace <= Moved(w, move, idOf, compromised).trace
  {
  }

  lemma {:induction false} ProofsAnswerHellos(moves: seq<Move>, idOf: IdOf, compromised: set<Key>, k: nat, peer: Key,
          challenge: Challenge)
    returns (n: nat)
    requires IsProtocolRun(moves, idOf, compromised) && ProofsAreProtocol(moves, compromised) && peer !in compromised
    requires k < |Reached(moves, idOf, compromised).trace|
    requires IsProof(Reached(moves, idOf, compromised).trace[k], peer, challenge, idOf)
    ensures RanProtocol(moves, n, k, peer, challenge, idOf, compromised)
    decreases |moves|
  {
    var front, last := moves[..|moves| - 1], moves[|moves| - 1];
    var w := Reached(front, idOf, compromised);
    TraceIsKept(w, last, idOf, compromised);
    hide Moved, IsProof, VerifiesHello;
    if k < |w.trace| {
      assert ProofsAreProtocol(front, compromised);
      n := ProofsAnswerHellos(front, idOf, compromised, k, peer, challenge);
      assert front[..n] == moves[..n];
    } else {
      n := |front|;
      MoveSigns(w, last, idOf, compromised, k, peer, challenge);
    }
  }

  /** If uncompromised keys sign proofs in handshakes only, then a peer with such a key that
      was authenticated had itself, after the challenge was generated, stood in a session of
      its own and verified a hello that carries this very challenge. */
  lemma {:induction false} PeerRanTheProtocol(moves: seq<Move>, idOf: IdOf, compromised: set<Key>, i: nat)
    requires IsProtocolRun(moves, idOf, compromised) && ProofsAreProtocol(moves, compromised)
    requires var w := Reached(moves, idOf, compromised);
             i < |w.trace| && w.trace[i].Authenticated? && w.trace[i].peer !in compromised
    ensures var w := Reached(moves, idOf, compromised);
            var e := w.trace[i];
            && e.session in w.sessions
            && var p := w.sessions[e.session];
            exists n, k :: k > p.born && RanProtocol(moves, n, k, e.peer, p.side.challenge, idOf, compromised)
  {
    RecentAliveness(moves, idOf, compromised, i);
    var w := Reached(moves, idOf, compromised);
    var e := w.trace[i];
    var p := w.sessions[e.session];
    var k :| p.born < k < |w.trace| && IsProof(w.trace[k], e.peer, p.side.challenge, idOf);
    var n := ProofsAnswerHellos(moves, idOf, compromised, k, e.peer, p.side.challenge);
  }

  // ---- one side, whatever messages it gets -------------------------------------------------------

  /** A Discovery signed by a key under that key's identity. */
  predicate IsDiscoveryBy(m: Message, key: Key, idOf: IdOf) {
    m.content.kind == Discovery && m.content.origin == idOf(key) && m.signature == Some(Signature(key, m.content))
  }

  /** A hello from another identity, carrying its key and a 32-byte challenge. */
  predicate IsHelloFrom(m: Message, own: Key, key: Key, theirs: Challenge, idOf: IdOf) {
    && IsDiscoveryBy(m, key, idOf) && idOf(key) != idOf(own)
    && m.content.payload.publicKey == Some(key) && m.content.payload.challenge == Some(theirs) && |theirs| == 32
  }

  /** A proof by this key that echoes this challenge. */
  predicate IsProofFrom(m: Message, key: Key, challenge: Challenge, idOf: IdOf) {
    IsDiscoveryBy(m, key, idOf) && m.content.payload.proofFor == Some(challenge)
  }

  /** A hello is accepted exactly when it is a Discovery signed by the key it carries,
      under that key's identity, which is not the node's own, with a 32-byte challenge. */
  lemma {:induction false} HelloAcceptedIff(m: Message, own: Key, key: Key, theirs: Challenge, idOf: IdOf)
    ensures CheckHello(m, own, idOf) == Ok(Hello(key, theirs)) <==>
              IsHelloFrom(m, own, key, theirs, idOf)
  {
  }

  /** A side after these messages, and what it signed in answer to them. */
  function Taken(s: Side, messages: seq<Message>, idOf: IdOf): (Side, seq<Content>) {
    if messages == [] then (s, [])
    else
      var (s1, signed) := Taken(s, messages[..|messages| - 1], idOf);
      var (s2, content) := OnMessage(s1, messages[|messages| - 1], idOf);
      (s2, if content.Some? then signed + [content.value] else signed)
  }

  /** A hello from this key, whatever its challenge. */
  ghost predicate IsHelloBy(m: Message, own: Key, key: Key, idOf: IdOf) {
    exists theirs :: IsHelloFrom(m, own, key, theirs, idOf)
  }

  ghost predicate IsHello(m: Message, own: Key, idOf: IdOf) {
    exists key :: IsHelloBy(m, own, key, idOf)
  }

  /** The answer to a hello: a proof under the own identity that echoes its challenge. */
  predicate IsAnswerTo(content: Content, m: Message, own: Key, idOf: IdOf) {
    && content.kind == Discovery && content.origin == idOf(own)
    && content.payload == Payload(None, None, m.content.payload.challenge)
  }

  lemma {:induction false} HelloMoves(s: Side, m: Message, idOf: IdOf)
    requires s.stage.AwaitHello?
    ensures var (s', answer) := OnMessage(s, m, idOf);
            && s'.own == s.own && s'.challenge == s.challenge
            && (forall key :: IsHelloBy(m, s.own, key, idOf) <==> s'.stage == AwaitProof(key))
            && (IsHello(m, s.own, idOf) ==> answer.Some? && IsAnswerTo(answer.value, m, s.own, idOf))
            && (!IsHello(m, s.own, idOf) ==> s'.stage.Abandoned? && answer.None?)
  {
    var checked := CheckHello(m, s.own, idOf);
    forall key, theirs ensures IsHelloFrom(m, s.own, key, theirs, idOf) <==> checked == Ok(Hello(key, theirs)) {
      HelloAcceptedIff(m, s.own, key, theirs, idOf);
    }
    if checked.Ok? {
      assert IsHelloFrom(m, s.own, checked.value.key, checked.value.challenge, idOf);
      assert IsHelloBy(m, s.own, checked.value.key, idOf);
    }
    hide CheckHello;
  }

  lemma {:induction false} ProofMoves(s: Side, m: Message, idOf: IdOf)
    requires s.stage.AwaitProof?
    ensures var (s', answer) := OnMessage(s, m, idOf);
            && s'.own == s.own && s'.challenge == s.challenge && answer.None?
            && if IsProofFrom(m, s.stage.peer, s.challenge, idOf) then s'.stage == Accepted(s.stage.peer) else s'.stage.Abandoned?
  {
  }

  /** What came of the first message, or two. */
  ghost predicate StandsAs(s: Side, signed: seq<Content>, own: Key, challenge: Challenge, messages: seq<Message>,
          idOf: IdOf) {
    && s.own == own && s.challenge == challenge
    && (messages == [] ==> s.stage.AwaitHello? && signed == [])
    && (messages != [] && !IsHello(messages[0], own, idOf) ==> s.stage.Abandoned? && signed == [])
    && (messages != [] && IsHello(messages[0], own, idOf) ==>
          && |signed| == 1 && IsAnswerTo(signed[0], messages[0], own, idOf)
          && (|messages| == 1 ==> forall key :: IsHelloBy(messages[0], own, key, idOf) <==> s.stage == AwaitProof(key))
          && (|messages| == 1 ==> s.stage.AwaitProof?)
          && (|messages| > 1 ==> s.stage.Accepted? || s.stage.Abandoned?)
          && (|messages| > 1 ==>
                forall key :: s.stage == Accepted(key) <==>
                                IsHelloBy(messages[0], own, key, idOf) && IsProofFrom(messages[1], key, challenge, idOf)))
  }

  lemma {:induction false} NextStands(s: Side, signed: seq<Content>, own: Key, challenge: Challenge,
          front: seq<Message>, m: Message,
          idOf: IdOf)
    requires StandsAs(s, signed, own, challenge, front, idOf)
    ensures var (s', answer) := OnMessage(s, m, idOf);
            StandsAs(s', if answer.Some? then signed + [answer.value] else signed, own, challenge, front + [m], idOf)
  {
    var messages := front + [m];
    if s.stage.AwaitHello? { HelloMoves(s, m, idOf); }
    if s.stage.AwaitProof? { ProofMoves(s, m, idOf); }
    assert |front| > 0 ==> messages[0] == front[0];
    assert |front| > 1 ==> messages[1] == front[1];
    assert s.stage.Accepted? || s.stage.Abandoned? ==> OnMessage(s, m, idOf) == (s, None);
    hide OnMessage, IsHelloBy, IsProofFrom, IsAnswerTo;
    assert IsHello(m, own, idOf) ==> exists key :: IsHelloBy(m, own, key, idOf);
  }

  lemma {:induction false} TakenStands(own: Key, challenge: Challenge, messages: seq<Message>, idOf: IdOf)
    ensures var (s, signed) := Taken(Side(own, challenge, AwaitHello), messages, idOf);
            StandsAs(s, signed, own, challenge, messages, idOf)
  {
    if messages != [] {
      var front, last := messages[..|messages| - 1], messages[|messages| - 1];
      var (s, signed) := Taken(Side(own, challenge, AwaitHello), front, idOf);
      assert messages == front + [last];
      hide StandsAs, OnMessage;
      TakenStands(own, challenge, front, idOf);
      NextStands(s, signed, own, challenge, front, last, idOf);
    }
  }

  /** Whatever messages a side gets, it has accepted a key if and only if the first was a
      hello from that key and the second a proof by it for this side's challenge. It signs
      one answer, to the first message if that was a hello, and no more. */
  lemma {:induction false} AcceptedIff(own: Key, challenge: Challenge, messages: seq<Message>, idOf: IdOf)
    ensures var (s, signed) := Taken(Side(own, challenge, AwaitHello), messages, idOf);
            && (forall key :: s.stage == Accepted(key) <==>
                  |messages| > 1 && IsHelloBy(messages[0], own, key, idOf) && IsProofFrom(messages[1], key, challenge, idOf))
            && |signed| == (if messages != [] && IsHello(messages[0], own, idOf) then 1 else 0)
            && (signed != [] ==> IsAnswerTo(signed[0], messages[0], own, idOf))
  {
    TakenStands(own, challenge, messages, idOf);
    assert forall m, key :: IsHelloBy(m, own, key, idOf) ==> IsHello(m, own, idOf);
    hide IsHelloBy, IsProofFrom, IsAnswerTo, Taken;
  }

  /** A message that fails its check ends the handshake: nothing that comes after it is
      accepted or answered. */
  lemma {:induction false} FailureIsFinal(own: Key, challenge: Challenge, messages: seq<Message>, more: seq<Message>,
          idOf: IdOf)
    requires messages != []
    requires !IsHello(messages[0], own, idOf)
             || (|messages| > 1 && forall key :: IsHelloBy(messages[0], own, key, idOf) ==>
                                                   !IsProofFrom(messages[1], key, challenge, idOf))
    ensures var (s, signed) := Taken(Side(own, challenge, AwaitHello), messages, idOf);
            var (s', signed') := Taken(Side(own, challenge, AwaitHello), messages + more, idOf);
            s.stage.Abandoned? && s'.stage.Abandoned? && signed' == signed
  {
    TakenStands(own, challenge, messages, idOf);
    TakenStands(own, challenge, messages + more, idOf);
    var (s, signed) := Taken(Side(own, challenge, AwaitHello), messages, idOf);
    var (s', signed') := Taken(Side(own, challenge, AwaitHello), messages + more, idOf);
    assert (messages + more)[0] == messages[0] && (|messages| > 1 ==> (messages + more)[1] == messages[1]);
    hide IsHelloBy, IsProofFrom, Taken;
  }

  /** What a refused hello, or proof, is refused for. */
  lemma {:induction false} RefusedFor(m: Message, own: Key, peer: Key, challenge: Challenge, idOf: IdOf)
    ensures var field := m.content.payload.publicKey;
            var signed := field.Some? && IsDiscoveryBy(m, field.value, idOf);
            var other := field.Some? && idOf(field.value) != idOf(own);
            var sent := m.content.payload.challenge;
            var e := CheckHello(m, own, idOf);
            && (e == Err(OwnIdentity) <==> signed && !other)
            && (e == Err(NoField) <==> field.None? || (signed && other && sent.None?))
            && (forall n :: e == Err(ChallengeLength(n)) <==> signed && other && sent.Some? && |sent.value| == n && n != 32)
            && (e == Err(IdentityMismatch) <==> field.Some? && m.content.origin != idOf(field.value))
    ensures var e := CheckProof(m, peer, challenge, idOf);
            && (e == Some(NotEchoed) <==>
                  IsDiscoveryBy(m, peer, idOf) && m.content.payload.proofFor.Some? && m.content.payload.proofFor != Some(challenge))
            && (e == Some(NoField) <==> IsDiscoveryBy(m, peer, idOf) && m.content.payload.proofFor.None?)
            && (e == Some(OtherIdentity) <==> m.content.kind == Discovery && m.content.origin != idOf(peer))
            && (e == Some(NotDiscovery) <==> m.content.kind != Discovery)
  {
  }

  // ---- two undisturbed nodes -------------------------------------------------------------------------------

  /** Two nodes under distinct identities whose messages arrive authenticate each other. */
  lemma {:induction false} HonestPairSucceeds(a: Key, b: Key, ca: Challenge, cb: Challenge, idOf: IdOf)
    requires idOf(a) != idOf(b) && |ca| == CHALLENGE_LEN && |cb| == CHALLENGE_LEN
    ensures var (a1, answerA) := OnMessage(Side(a, ca, AwaitHello), Sign(b, HelloContent(b, cb, idOf)), idOf);
            var (b1, answerB) := OnMessage(Side(b, cb, AwaitHello), Sign(a, HelloContent(a, ca, idOf)), idOf);
            && answerA.Some? && answerB.Some?
            && OnMessage(a1, Sign(b, answerB.value), idOf).0.stage == Accepted(b)
            && OnMessage(b1, Sign(a, answerA.value), idOf).0.stage == Accepted(a)
  {
  }
}
