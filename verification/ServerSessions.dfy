/**
 The server's side of the session handshake. The server keeps nothing between the first request and
 the reply: the session id is a cookie that binds the client's address and the epoch in which it asked.
 */
module ServerSessions {
  import opened Wrappers
  import opened Payloads
  import opened Forwards
  import C = Challenges

  type Bytes = seq<Byte>

  /** A socket address. */
  datatype Addr =
    | V4(ip: Bytes, port: Uint16)
    | V6(ip: Bytes, port: Uint16, flowInfo: nat, scopeId: nat)
  {
    predicate Valid() {
      |ip| == if V4? then 4 else 16
    }

    /** The cookie binds the ip address and the port, not the flow label and the scope of a V6 address. */
    predicate SameEndpoint(other: Addr) {
      V4? == other.V4? && ip == other.ip && port == other.port
    }
  }

  /** `keccak` is the cookie hash and `native` the machine's own encoding of 64-bit numbers. */
  datatype Server = Server(
    crypto: C.Crypto,
    keccak: Bytes -> Bytes,
    native: nat -> Bytes,
    salt: Bytes,
    difficulty: nat)

  ghost predicate ServerOk(s: Server) {
    && |s.salt| == 16 && s.difficulty <= C.MAX_U64
    && (forall x :: |s.keccak(x)| == 32)
    && (forall x: nat :: x <= C.MAX_U64 ==> |s.native(x)| == 8)
    && (forall x: nat, y: nat :: x <= C.MAX_U64 && y <= C.MAX_U64 && s.native(x) == s.native(y) ==> x == y)
  }

  // ---------------------------------------------------------------- cookies

  function Preimage(s: Server, addr: Addr, epoch: nat): Bytes {
    addr.ip + ToBytes(addr.port, 2) + s.salt + s.native(s.difficulty) + s.native(epoch)
  }

  function Cookie(s: Server, addr: Addr, epoch: nat): Bytes
    requires ServerOk(s)
  {
    s.keccak(Preimage(s, addr, epoch))[..16]
  }

  function ChallengePreimage(s: Server, sessionId: Bytes): Bytes {
    sessionId + s.salt
  }

  function ChallengeFor(s: Server, sessionId: Bytes): Bytes
    requires ServerOk(s)
  {
    s.keccak(ChallengePreimage(s, sessionId))[..16]
  }

  /** `n` epochs ago, in 64-bit arithmetic. */
  function Ago(epoch: nat, n: nat): nat
    requires epoch <= C.MAX_U64 && n <= 2
  {
    if epoch >= n then epoch - n else epoch + C.MAX_U64 + 1 - n
  }

  predicate Recent(s: Server, sessionId: Bytes, addr: Addr, epoch: nat)
    requires ServerOk(s) && epoch <= C.MAX_U64
  {
    exists n :: 0 <= n <= 2 && sessionId == Cookie(s, addr, Ago(epoch, n))
  }

  method CheckSessionId(s: Server, sessionId: Bytes, addr: Addr, epoch: nat) returns (ok: bool)
    requires ServerOk(s) && epoch <= C.MAX_U64
    ensures ok == Recent(s, sessionId, addr, epoch)
  {
    for n := 0 to 3
      invariant forall m :: 0 <= m < n ==> sessionId != Cookie(s, addr, Ago(epoch, m))
    {
      if sessionId == Cookie(s, addr, Ago(epoch, n)) {
        return true;
      }
    }
    return false;
  }

  lemma Pieces(ip: Bytes, port: Bytes, salt: Bytes, difficulty: Bytes, epoch: Bytes)
    ensures var all, k, m := ip + port + salt + difficulty + epoch, |ip| + |port|, |salt| + |difficulty|;
            && all[..|ip|] == ip
            && all[|ip|..k] == port
            && all[k + m..] == epoch
  {
    var all := ip + port + salt + difficulty + epoch;
    assert all == ip + (port + (salt + (difficulty + epoch)));
    assert all == (ip + port + salt + difficulty) + epoch;
  }

  /** The same bytes are hashed exactly for the same ip address, port and epoch. */
  lemma PreimageInjective(s: Server, a: Addr, b: Addr, d: nat, e: nat)
    requires ServerOk(s) && a.Valid() && b.Valid() && d <= C.MAX_U64 && e <= C.MAX_U64
    ensures Preimage(s, a, d) == Preimage(s, b, e) <==> a.SameEndpoint(b) && d == e
  {
    if Preimage(s, a, d) == Preimage(s, b, e) {
      PreimageDetermines(s, a, b, d, e);
    }
  }

  lemma PreimageDetermines(s: Server, a: Addr, b: Addr, d: nat, e: nat)
    requires ServerOk(s) && a.Valid() && b.Valid() && d <= C.MAX_U64 && e <= C.MAX_U64
    requires Preimage(s, a, d) == Preimage(s, b, e)
    ensures a.SameEndpoint(b) && d == e
  {
    assert |Preimage(s, a, d)| == |a.ip| + 34 && |Preimage(s, b, e)| == |b.ip| + 34;
    Pieces(a.ip, ToBytes(a.port, 2), s.salt, s.native(s.difficulty), s.native(d));
    Pieces(b.ip, ToBytes(b.port, 2), s.salt, s.native(s.difficulty), s.native(e));
    Ranges();
    FromToBytes(a.port, 2);
    FromToBytes(b.port, 2);
  }

  /** What is hashed depends on the server's secret and difficulty as well: two servers that encode numbers in the
      same way hash the same bytes only if they agree on both. */
  lemma PreimageBindsServer(s: Server, t: Server, a: Addr, b: Addr, d: nat, e: nat)
    requires ServerOk(s) && ServerOk(t) && s.native == t.native
    requires a.Valid() && b.Valid() && d <= C.MAX_U64 && e <= C.MAX_U64 && Preimage(s, a, d) == Preimage(t, b, e)
    ensures s.salt == t.salt && s.difficulty == t.difficulty
  {
    var k := |a.ip| + 2;
    var x, y := Preimage(s, a, d), Preimage(t, b, e);
    assert |x| == |a.ip| + 34 && |y| == |b.ip| + 34;
    MiddlePieces(a.ip + ToBytes(a.port, 2), s.salt, s.native(s.difficulty), s.native(d));
    MiddlePieces(b.ip + ToBytes(b.port, 2), t.salt, t.native(t.difficulty), t.native(e));
    assert x[k..k + 16] == s.salt && y[k..k + 16] == t.salt;
    assert x[k + 16..k + 24] == s.native(s.difficulty) && y[k + 16..k + 24] == t.native(t.difficulty);
  }

  lemma MiddlePieces(a: Bytes, b: Bytes, c: Bytes, d: Bytes)
    ensures var all := a + b + c + d;
            && all[|a|..|a| + |b|] == b
            && all[|a| + |b|..|a| + |b| + |c|] == c
  {
    var all := a + b + c + d;
    assert all == a + (b + (c + d));
    assert all == (a + b) + (c + d);
  }

  /** A session id has a challenge of its own, unless the truncated hash happens to collide. */
  lemma ChallengeBindsId(s: Server, x: Bytes, y: Bytes)
    requires ServerOk(s)
    requires s.keccak(ChallengePreimage(s, x))[..16] == s.keccak(ChallengePreimage(s, y))[..16] ==>
               ChallengePreimage(s, x) == ChallengePreimage(s, y)
    ensures ChallengeFor(s, x) == ChallengeFor(s, y) <==> x == y
  {
    if ChallengePreimage(s, x) == ChallengePreimage(s, y) {
      assert |x| == |y| && (x + s.salt)[..|x|] == x && (y + s.salt)[..|y|] == y;
    }
  }

  /** The hash does not happen to give the cookie of `(a, d)` to one of the three cookies that are
      valid for `b` at `e`. */
  ghost predicate NoCollision(s: Server, a: Addr, d: nat, b: Addr, e: nat)
    requires ServerOk(s) && e <= C.MAX_U64
  {
    forall n :: 0 <= n <= 2 && Cookie(s, a, d) == Cookie(s, b, Ago(e, n)) ==>
      Preimage(s, a, d) == Preimage(s, b, Ago(e, n))
  }

  /** A cookie is accepted exactly from the ip address and port it was given to, in its own epoch or one of
      the next two. */
  lemma CookieBindsAddressAndTime(s: Server, a: Addr, d: nat, b: Addr, e: nat)
    requires ServerOk(s) && a.Valid() && b.Valid() && d <= C.MAX_U64 && e <= C.MAX_U64
    requires NoCollision(s, a, d, b, e)
    ensures Recent(s, Cookie(s, a, d), b, e) <==> a.SameEndpoint(b) && exists n :: 0 <= n <= 2 && d == Ago(e, n)
  {
    if Recent(s, Cookie(s, a, d), b, e) {
      var n :| 0 <= n <= 2 && Cookie(s, a, d) == Cookie(s, b, Ago(e, n));
      PreimageInjective(s, a, b, d, Ago(e, n));
    } else if a.SameEndpoint(b) {
      PreimageInjective(s, a, b, d, d);
    }
  }

  // ---------------------------------------------------------------- requests and replies

  datatype Version = Invalid | TooOld | Supported

  datatype SessionRequest = SessionRequest(version: Version, response: Option<C.Response>)

  /** What the session table answers when the session is entered. */
  datatype Entered = Created | Exists(nodeId: C.NodeId)

  datatype Code = Success | BadRequest | Conflict

  datatype Reply =
    | Ignored
    | Reply(code: Code, sessionId: Bytes, challenge: Option<(Bytes, nat)>)

  function Handle(s: Server, epoch: nat, src: Addr, sessionId: Option<Bytes>, request: SessionRequest,
                  entered: Entered): Reply
    requires ServerOk(s) && epoch <= C.MAX_U64
  {
    if sessionId.None? then
      if !request.version.Supported? then Reply(BadRequest, [], None)
      else
        var id := Cookie(s, src, epoch);
        Reply(Success, id, Some((ChallengeFor(s, id), s.difficulty)))
    else
      var id := sessionId.value;
      if request.response.None? then Ignored
      else
        match C.Recover(s.crypto, ChallengeFor(s, id), s.difficulty, request.response, None)
        case Err(_) => Reply(BadRequest, id, None)
        case Ok(recovered) =>
          if !Recent(s, id, src, epoch) then Reply(BadRequest, id, None)
          else if entered.Exists? && entered.nodeId != recovered.defaultId then Reply(Conflict, id, None)
          else Reply(Success, id, None)
  }

  /** A challenge is given exactly in answer to a first request with a supported version, and whatever else
      comes is rejected or concluded; the session id given with it is the client's for three epochs. */
  lemma ChallengedIffSupportedHello(s: Server, epoch: nat, src: Addr, sessionId: Option<Bytes>,
                                    request: SessionRequest, entered: Entered, later: nat)
    requires ServerOk(s) && epoch <= C.MAX_U64 && epoch <= later <= epoch + 2 && later <= C.MAX_U64
    ensures var reply := Handle(s, epoch, src, sessionId, request, entered);
            && (reply.Reply? && reply.challenge.Some? <==> sessionId.None? && request.version.Supported?)
            && (sessionId.None? ==>
                  && reply.Reply? && reply.code != Conflict
                  && (reply.code == Success <==> request.version.Supported?))
            && (reply.Reply? && reply.code == Success ==> Recent(s, reply.sessionId, src, epoch))
            && (reply.Reply? && reply.challenge.Some? ==> Recent(s, reply.sessionId, src, later))
  {
    assert Cookie(s, src, epoch) == Cookie(s, src, Ago(epoch, 0)) == Cookie(s, src, Ago(later, later - epoch));
    if sessionId.Some? && request.response.Some? {
      match C.Recover(s.crypto, ChallengeFor(s, sessionId.value), s.difficulty, request.response, None) {
        case Err(_) =>
        case Ok(_) =>
      }
    }
  }

  /** The server grants a session, or reports a conflict, exactly to a response that solves the challenge of the
      id at the server's difficulty and is signed by all the identities it claims, if the id is recent for the
      sender's endpoint. It is a conflict exactly if the session is entered for a node other than the first
      signer. Anything else is refused, and what carries no response is ignored. */
  lemma GrantedExactlyToProven(s: Server, epoch: nat, src: Addr, id: Bytes, request: SessionRequest, entered: Entered)
    requires ServerOk(s) && C.DigestOk(s.crypto) && epoch <= C.MAX_U64
    ensures var reply := Handle(s, epoch, src, Some(id), request, entered);
            && (reply.Ignored? <==> request.response.None?)
            && (reply.Reply? ==>
                  && reply.sessionId == id && reply.challenge.None?
                  && (reply.code != BadRequest <==>
                        Recent(s, id, src, epoch) && exists ids: seq<C.Identity> :: Grounds(s, id, request, ids)))
    ensures forall ids: seq<C.Identity> :: Grounds(s, id, request, ids) ==>
              var reply := Handle(s, epoch, src, Some(id), request, entered);
              reply.Reply? && (reply.code == Conflict <==>
                && Recent(s, id, src, epoch) && entered.Exists? && entered.nodeId != ids[0].nodeId)
  {
    if request.response.Some? {
      var r := request.response.value;
      var challenge := ChallengeFor(s, id);
      var got := C.Recover(s.crypto, challenge, s.difficulty, Some(r), None);
      forall ids: seq<C.Identity> ensures Grounds(s, id, request, ids) <==> got.Ok? && got.value.identities == ids {
        C.RecoversExactlyProven(s.crypto, challenge, s.difficulty, r, ids, None);
      }
      if got.Ok? {
        C.RecoveredIsProven(s.crypto, challenge, s.difficulty, Some(r), None);
        assert Grounds(s, id, request, got.value.identities);
      }
    }
  }

  /** The request proves possession of the keys of `ids` in answer to the challenge of the session id. */
  ghost predicate Grounds(s: Server, id: Bytes, request: SessionRequest, ids: seq<C.Identity>)
    requires ServerOk(s)
  {
    request.response.Some? && C.Proves(s.crypto, ChallengeFor(s, id), s.difficulty, request.response.value, ids)
  }

  /** The whole handshake with an honest client: the reply to its first request carries a cookie and a
      challenge; its answer from the same address succeeds in that epoch and the next two, unless the
      session is already entered for somebody else. */
  lemma HonestHandshakeSucceeds(s: Server, src: Addr, asked: nat, answered: nat, hello: SessionRequest,
                                keys: seq<C.SecretKey>, sessionKey: Bytes, n: nat, before: Entered, entered: Entered)
    requires ServerOk(s) && C.DigestOk(s.crypto) && C.SignaturesOk(s.crypto)
    requires asked <= answered <= asked + 2 && answered <= C.MAX_U64
    requires hello.version.Supported? && keys != [] && s.crypto.parseKey(sessionKey).Some?
    requires C.Solves(s.crypto, ChallengeFor(s, Cookie(s, src, asked)), s.difficulty, n)
    ensures var first := Handle(s, asked, src, None, hello, before);
            && first.Reply? && first.code == Success && first.challenge.Some?
            && var (challenge, difficulty) := first.challenge.value;
            && difficulty == s.difficulty
            && var answer := SessionRequest(hello.version, Some(C.Answer(s.crypto, challenge, n, keys, sessionKey)));
               Handle(s, answered, src, Some(first.sessionId), answer, entered) ==
               Reply(if entered.Exists? && entered.nodeId != C.Signer(s.crypto, keys[0]).nodeId then Conflict
                     else Success, first.sessionId, None)
  {
    var id := Cookie(s, src, asked);
    var challenge := ChallengeFor(s, id);
    C.HonestAnswerRecovered(s.crypto, challenge, s.difficulty, n, keys, sessionKey, None);
    assert id == Cookie(s, src, Ago(answered, answered - asked));
    assert Recent(s, id, src, answered);
  }

  /** A reply that comes later, or from another ip address or port, is rejected whatever it contains. */
  lemma LateOrForeignReplyRejected(s: Server, src: Addr, asked: nat, from: Addr, answered: nat,
                                   request: SessionRequest, entered: Entered)
    requires ServerOk(s) && src.Valid() && from.Valid() && asked <= answered <= C.MAX_U64
    requires NoCollision(s, src, asked, from, answered)
    requires !src.SameEndpoint(from) || answered > asked + 2
    ensures var reply := Handle(s, answered, from, Some(Cookie(s, src, asked)), request, entered);
            reply.Ignored? || reply.code == BadRequest
  {
    CookieBindsAddressAndTime(s, src, asked, from, answered);
  }
}
