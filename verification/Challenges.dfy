/**
 The proof-of-work challenge: solving it, verifying a solution, and recovering the identities that
 signed it. Hashing and signing are parameters.
 */
module Challenges {
  import opened Wrappers
  import opened Payloads
  import opened Forwards

  type Bytes = seq<Byte>
  type SecretKey = nat
  type PublicKey = nat
  type NodeId = nat

  const PREFIX_SIZE := 8
  const SIGNATURE_SIZE := 65
  const MAX_U64 := 0xFFFF_FFFF_FFFF_FFFF

  /** The primitives. `keyDigest` hashes a session key under its own domain, and `parseKey` decodes
      the transmitted form of a public key. */
  datatype Crypto = Crypto(
    digest: Bytes -> Bytes,
    messageDigest: Bytes -> Bytes,
    keyDigest: Bytes -> Bytes,
    sign: (SecretKey, Bytes) -> Bytes,
    recover: (Bytes, Bytes) -> Option<PublicKey>,
    publicKey: SecretKey -> PublicKey,
    nodeId: PublicKey -> NodeId,
    parseKey: Bytes -> Option<PublicKey>)

  /** A digest is 64 bytes long. */
  ghost predicate DigestOk(c: Crypto) {
    forall x :: |c.digest(x)| == 64
  }

  /** A signature is 65 bytes long and reveals its signer. */
  ghost predicate SignaturesOk(c: Crypto) {
    forall k, m :: |c.sign(k, m)| == SIGNATURE_SIZE && c.recover(c.sign(k, m), m) == Some(c.publicKey(k))
  }

  // ---------------------------------------------------------------- leading zeros

  function ByteZeros(b: Byte): nat {
    if b >= 128 then 0 else if b >= 64 then 1 else if b >= 32 then 2 else if b >= 16 then 3
    else if b >= 8 then 4 else if b >= 4 then 5 else if b >= 2 then 6 else if b >= 1 then 7 else 8
  }

  function LeadingZeros(bytes: Bytes): nat {
    if bytes == [] then 0
    else if bytes[0] == 0 then 8 + LeadingZeros(bytes[1..])
    else ByteZeros(bytes[0])
  }

  method CountLeadingZeros(bytes: Bytes) returns (total: nat)
    ensures total == LeadingZeros(bytes)
  {
    total := 0;
    for i := 0 to |bytes|
      invariant total + LeadingZeros(bytes[i..]) == LeadingZeros(bytes)
    {
      assert bytes[i..][1..] == bytes[i + 1..];
      if bytes[i] == 0 {
        total := total + 8;
      } else {
        return total + ByteZeros(bytes[i]);
      }
    }
  }

  function Pow2(n: nat): (p: nat)
    ensures p > 0
  {
    if n == 0 then 1 else 2 * Pow2(n - 1)
  }

  /** Multiplication under a name, so that proofs can speak of products as a whole. */
  function Mul(a: nat, b: nat): nat {
    a * b
  }

  /** The bytes read as one big-endian number. */
  function Value(bytes: Bytes): nat {
    if bytes == [] then 0 else Mul(bytes[0], Pow2(8 * (|bytes| - 1))) + Value(bytes[1..])
  }

  lemma {:induction false} Pow2Add(a: nat, b: nat)
    ensures Pow2(a + b) == Mul(Pow2(a), Pow2(b))
  {
    if a > 0 {
      Pow2Add(a - 1, b);
      Doubled(Pow2(a - 1), Pow2(b));
    }
  }

  lemma Doubled(a: nat, b: nat)
    ensures Mul(2 * a, b) == 2 * Mul(a, b)
  {
  }

  lemma {:induction false} Pow2Grows(a: nat, b: nat)
    requires a <= b
    ensures Pow2(a) <= Pow2(b)
  {
    if a < b {
      Pow2Grows(a, b - 1);
    }
  }

  lemma Pow2Small()
    ensures Pow2(0) == 1 && Pow2(1) == 2 && Pow2(2) == 4 && Pow2(3) == 8 && Pow2(4) == 16
    ensures Pow2(5) == 32 && Pow2(6) == 64 && Pow2(7) == 128 && Pow2(8) == 256
  {
    assert Pow2(2) == 2 * Pow2(1);
    assert Pow2(4) == 2 * Pow2(3);
    assert Pow2(6) == 2 * Pow2(5);
    assert Pow2(8) == 2 * Pow2(7);
  }

  /** The top digit decides a comparison with a multiple of its weight. */
  lemma TopDigit(b: nat, rest: nat, p: nat, q: nat)
    requires rest < p
    ensures Mul(b, p) + rest < Mul(q, p) <==> b < q
  {
    if b < q {
      assert (b + 1) * p <= q * p;
    } else {
      assert q * p <= b * p;
    }
  }

  lemma {:induction false} ValueBound(bytes: Bytes)
    ensures Value(bytes) < Pow2(8 * |bytes|)
  {
    if bytes != [] {
      var n := 8 * (|bytes| - 1);
      ValueBound(bytes[1..]);
      Pow2Add(8, n);
      Pow2Small();
      TopDigit(bytes[0], Value(bytes[1..]), Pow2(n), 256);
    }
  }

  /** The first byte decides when the threshold lies within it. */
  lemma FirstByte(b: Byte, d: nat)
    requires d <= 8
    ensures ByteZeros(b) >= d <==> b < Pow2(8 - d)
  {
    Pow2Small();
  }

  /** Counting leading zero bits compares the number with a power of two. */
  lemma {:induction false} LeadingZerosIsThreshold(bytes: Bytes, d: nat)
    requires d <= 8 * |bytes|
    ensures LeadingZeros(bytes) >= d <==> Value(bytes) < Pow2(8 * |bytes| - d)
  {
    if bytes != [] {
      var n := 8 * (|bytes| - 1);
      var b, rest := bytes[0], bytes[1..];
      ValueBound(rest);
      if d <= 8 {
        Pow2Add(8 - d, n);
        assert 8 * |bytes| - d == 8 - d + n;
        TopDigit(b, Value(rest), Pow2(n), Pow2(8 - d));
        FirstByte(b, d);
      } else if b == 0 {
        LeadingZerosIsThreshold(rest, d - 8);
        assert Mul(0, Pow2(n)) == 0;
      } else {
        FewZeros(b);
        Pow2Grows(n + 8 - d, n);
        TopDigit(b, Value(rest), Pow2(n), 1);
        assert Mul(1, Pow2(n)) == Pow2(n);
      }
    }
  }

  lemma FewZeros(b: Byte)
    requires b != 0
    ensures ByteZeros(b) < 8
  {
  }

  // ---------------------------------------------------------------- solving and verifying

  function Nonce(n: nat): Bytes {
    ToBytes(n, PREFIX_SIZE)
  }

  /** Does nonce `n` solve the challenge? */
  predicate Solves(c: Crypto, challenge: Bytes, difficulty: nat, n: nat) {
    LeadingZeros(c.digest(Nonce(n) + challenge)) >= difficulty
  }

  function Solution(c: Crypto, challenge: Bytes, n: nat): Bytes {
    Nonce(n) + c.digest(Nonce(n) + challenge)
  }

  /** The search returns the solution with the least nonce, and fails only if no 64-bit nonce solves
      the challenge. */
  method SolveChallenge(c: Crypto, challenge: Bytes, difficulty: nat) returns (r: Option<Bytes>, ghost n: nat)
    ensures r.Some? ==> n <= MAX_U64 && Solves(c, challenge, difficulty, n) && r.value == Solution(c, challenge, n)
    ensures r.Some? ==> forall m :: 0 <= m < n ==> !Solves(c, challenge, difficulty, m)
    ensures r.None? ==> forall m :: 0 <= m <= MAX_U64 ==> !Solves(c, challenge, difficulty, m)
  {
    var counter := 0;
    while true
      invariant 0 <= counter <= MAX_U64
      invariant forall m :: 0 <= m < counter ==> !Solves(c, challenge, difficulty, m)
      decreases MAX_U64 - counter
    {
      var prefix := ToBytes(counter, PREFIX_SIZE);
      var result := c.digest(prefix + challenge);
      var zeros := CountLeadingZeros(result);
      if zeros >= difficulty {
        return Some(prefix + result), counter;
      }
      if counter == MAX_U64 {
        return None, 0;
      }
      counter := counter + 1;
    }
  }

  function Verify(c: Crypto, challenge: Bytes, difficulty: nat, solution: Bytes): Option<bool> {
    if |solution| <= PREFIX_SIZE then None
    else
      var expected := c.digest(solution[..PREFIX_SIZE] + challenge);
      Some(expected == solution[PREFIX_SIZE..] && LeadingZeros(expected) >= difficulty)
  }

  /** Every solution verifies. */
  lemma SolutionVerifies(c: Crypto, challenge: Bytes, difficulty: nat, n: nat)
    requires DigestOk(c) && Solves(c, challenge, difficulty, n)
    ensures Verify(c, challenge, difficulty, Solution(c, challenge, n)) == Some(true)
  {
    var s := Solution(c, challenge, n);
    assert s[..PREFIX_SIZE] == Nonce(n);
    assert s[PREFIX_SIZE..] == c.digest(Nonce(n) + challenge);
  }

  /** And nothing else does: what verifies is the solution for the nonce it starts with. */
  lemma VerifiedIsSolution(c: Crypto, challenge: Bytes, difficulty: nat, solution: Bytes)
    requires Verify(c, challenge, difficulty, solution) == Some(true)
    ensures var n := FromBytes(solution[..PREFIX_SIZE]);
            n <= MAX_U64 && Solves(c, challenge, difficulty, n) && solution == Solution(c, challenge, n)
  {
    var prefix := solution[..PREFIX_SIZE];
    ToFromBytes(prefix);
    EightBytes();
    assert solution == prefix + solution[PREFIX_SIZE..];
  }

  lemma EightBytes()
    ensures Range(8) == MAX_U64 + 1
  {
    Ranges();
    assert Range(6) == 256 * Range(5) == 256 * (256 * Range(4));
    assert Range(8) == 256 * Range(7) == 256 * (256 * Range(6));
  }

  // ---------------------------------------------------------------- responses and identities

  datatype Identity = Identity(nodeId: NodeId, key: PublicKey)

  datatype Response = Response(solution: Bytes, signatures: seq<Bytes>, sessionSign: seq<Bytes>, sessionKey: Bytes)

  datatype RecoverError =
    | MissingResponse | BadSolutionSize | Unverified | MissingSignature | BadSignature
    | WrongNode | ProofCount | BadSessionKey | BadProof

  datatype Recovered = Recovered(
    defaultId: NodeId,
    identities: seq<Identity>,
    session: Option<(PublicKey, map<NodeId, Bytes>)>)

  function RecoverIdentity(c: Crypto, signature: Bytes, message: Bytes): Option<Identity> {
    if |signature| != SIGNATURE_SIZE then None
    else
      match c.recover(signature, message)
      case Some(key) => Some(Identity(c.nodeId(key), key))
      case None => None
  }

  /** The signers in order, or nothing if some signature does not reveal one. */
  function RecoverEach(c: Crypto, signatures: seq<Bytes>, message: Bytes): Option<seq<Identity>> {
    if signatures == [] then Some([])
    else
      match RecoverIdentity(c, signatures[0], message)
      case None => None
      case Some(first) =>
        match RecoverEach(c, signatures[1..], message)
        case None => None
        case Some(others) => Some([first] + others)
  }

  predicate ProvesSessionKey(c: Crypto, sessionKey: Bytes, proof: Bytes, identity: Identity) {
    |proof| == SIGNATURE_SIZE && c.recover(proof, c.keyDigest(sessionKey)) == Some(identity.key)
  }

  /** The first `k` proofs by identity; a later proof replaces an earlier one of the same identity. */
  function ProofMap(proofs: seq<Bytes>, identities: seq<Identity>, k: nat): map<NodeId, Bytes>
    requires k <= |proofs| == |identities|
  {
    if k == 0 then map[] else ProofMap(proofs, identities, k - 1)[identities[k - 1].nodeId := proofs[k - 1]]
  }

  predicate AllProve(c: Crypto, r: Response, identities: seq<Identity>)
    requires |r.sessionSign| == |identities|
  {
    forall i :: 0 <= i < |identities| ==> ProvesSessionKey(c, r.sessionKey, r.sessionSign[i], identities[i])
  }

  function WithSession(c: Crypto, r: Response, defaultId: NodeId, identities: seq<Identity>)
    : Result<Recovered, RecoverError>
  {
    if r.sessionSign == [] then Ok(Recovered(defaultId, identities, None))
    else if |r.sessionSign| != |identities| then Err(ProofCount)
    else if c.parseKey(r.sessionKey).None? then Err(BadSessionKey)
    else if !AllProve(c, r, identities) then Err(BadProof)
    else Ok(Recovered(defaultId, identities,
                      Some((c.parseKey(r.sessionKey).value, ProofMap(r.sessionSign, identities, |identities|)))))
  }

  function Recover(c: Crypto, challenge: Bytes, difficulty: nat, response: Option<Response>, remote: Option<NodeId>)
    : Result<Recovered, RecoverError>
  {
    if response.None? then Err(MissingResponse)
    else
      var r := response.value;
      match Verify(c, challenge, difficulty, r.solution)
      case None => Err(BadSolutionSize)
      case Some(false) => Err(Unverified)
      case Some(true) =>
        if r.signatures == [] then Err(MissingSignature)
        else
          var message := c.messageDigest(r.solution);
          match RecoverIdentity(c, r.signatures[0], message)
          case None => Err(BadSignature)
          case Some(first) =>
            if remote.Some? && remote.value != first.nodeId then Err(WrongNode)
            else
              match RecoverEach(c, r.signatures[1..], message)
              case None => Err(BadSignature)
              case Some(others) => WithSession(c, r, first.nodeId, [first] + others)
  }

  /** Checking the proofs one by one and collecting them. */
  method CollectProofs(c: Crypto, r: Response, identities: seq<Identity>) returns (proofs: Option<map<NodeId, Bytes>>)
    requires |r.sessionSign| == |identities|
    ensures proofs == if AllProve(c, r, identities)
                      then Some(ProofMap(r.sessionSign, identities, |identities|)) else None
  {
    var collected: map<NodeId, Bytes> := map[];
    for i := 0 to |identities|
      invariant forall j :: 0 <= j < i ==> ProvesSessionKey(c, r.sessionKey, r.sessionSign[j], identities[j])
      invariant collected == ProofMap(r.sessionSign, identities, i)
    {
      if !ProvesSessionKey(c, r.sessionKey, r.sessionSign[i], identities[i]) {
        return None;
      }
      collected := collected[identities[i].nodeId := r.sessionSign[i]];
    }
    return Some(collected);
  }

  // ---------------------------------------------------------------- an honest answer

  function SignEach(c: Crypto, keys: seq<SecretKey>, message: Bytes): (signatures: seq<Bytes>)
    ensures |signatures| == |keys|
    ensures forall i :: 0 <= i < |keys| ==> signatures[i] == c.sign(keys[i], message)
  {
    seq(|keys|, i requires 0 <= i < |keys| => c.sign(keys[i], message))
  }

  /** What a client with these keys answers, given a solving nonce. */
  function Answer(c: Crypto, challenge: Bytes, n: nat, keys: seq<SecretKey>, sessionKey: Bytes): Response {
    var solution := Solution(c, challenge, n);
    Response(solution, SignEach(c, keys, c.messageDigest(solution)), SignEach(c, keys, c.keyDigest(sessionKey)),
             sessionKey)
  }

  function Signer(c: Crypto, key: SecretKey): Identity {
    Identity(c.nodeId(c.publicKey(key)), c.publicKey(key))
  }

  function Signers(c: Crypto, keys: seq<SecretKey>): seq<Identity> {
    seq(|keys|, i requires 0 <= i < |keys| => Signer(c, keys[i]))
  }

  lemma {:induction false} SignersRecovered(c: Crypto, keys: seq<SecretKey>, message: Bytes)
    requires SignaturesOk(c)
    ensures RecoverEach(c, SignEach(c, keys, message), message) == Some(Signers(c, keys))
    decreases |keys|
  {
    if keys == [] {
      assert SignEach(c, keys, message) == [] && Signers(c, keys) == [];
    } else {
      SignersRecovered(c, keys[1..], message);
      var signatures := SignEach(c, keys, message);
      assert signatures[1..] == SignEach(c, keys[1..], message);
      assert |signatures[0]| == SIGNATURE_SIZE && c.recover(signatures[0], message) == Some(c.publicKey(keys[0]));
      assert Signers(c, keys) == [Signer(c, keys[0])] + Signers(c, keys[1..]);
    }
  }

  /** Recovery from an honest answer returns the signers in order, the first of them as the default,
      and a proof of the session key for each. */
  lemma HonestAnswerRecovered(c: Crypto, challenge: Bytes, difficulty: nat, n: nat, keys: seq<SecretKey>,
                              sessionKey: Bytes, remote: Option<NodeId>)
    requires DigestOk(c) && SignaturesOk(c) && Solves(c, challenge, difficulty, n)
    requires keys != [] && c.parseKey(sessionKey).Some?
    requires remote.Some? ==> remote.value == Signer(c, keys[0]).nodeId
    ensures var r := Recover(c, challenge, difficulty, Some(Answer(c, challenge, n, keys, sessionKey)), remote);
            && r.Ok?
            && r.value.defaultId == Signer(c, keys[0]).nodeId
            && r.value.identities == Signers(c, keys)
            && r.value.session.Some? && r.value.session.value.0 == c.parseKey(sessionKey).value
            && (forall i :: 0 <= i < |keys| ==>
                  Proven(c, sessionKey, r.value.session.value.1, Signer(c, keys[i]).nodeId))
  {
    var answer := Answer(c, challenge, n, keys, sessionKey);
    var identities := Signers(c, keys);
    HonestSignaturesRecovered(c, challenge, n, keys, sessionKey);
    HonestProofsAccepted(c, answer, keys, challenge, n, sessionKey);
    SolutionVerifies(c, challenge, difficulty, n);
    forall i | 0 <= i < |keys|
      ensures Proven(c, sessionKey, ProofMap(answer.sessionSign, identities, |keys|), Signer(c, keys[i]).nodeId)
    {
      ProofsCollected(c, answer, identities, |keys|, i);
    }
  }

  lemma HonestSignaturesRecovered(c: Crypto, challenge: Bytes, n: nat, keys: seq<SecretKey>, sessionKey: Bytes)
    requires SignaturesOk(c) && keys != []
    ensures var r := Answer(c, challenge, n, keys, sessionKey); var message := c.messageDigest(r.solution);
            && RecoverIdentity(c, r.signatures[0], message) == Some(Signer(c, keys[0]))
            && RecoverEach(c, r.signatures[1..], message).Some?
            && [Signer(c, keys[0])] + RecoverEach(c, r.signatures[1..], message).value == Signers(c, keys)
  {
    var r := Answer(c, challenge, n, keys, sessionKey);
    var message := c.messageDigest(r.solution);
    SignersRecovered(c, keys, message);
    FirstAndOthers(c, r.signatures, message);
  }

  lemma HonestProofsAccepted(c: Crypto, r: Response, keys: seq<SecretKey>, challenge: Bytes, n: nat, sessionKey: Bytes)
    requires SignaturesOk(c) && keys != [] && c.parseKey(sessionKey).Some?
    requires r == Answer(c, challenge, n, keys, sessionKey)
    ensures |r.sessionSign| == |Signers(c, keys)| && AllProve(c, r, Signers(c, keys))
    ensures WithSession(c, r, Signer(c, keys[0]).nodeId, Signers(c, keys)) ==
            Ok(Recovered(Signer(c, keys[0]).nodeId, Signers(c, keys),
                         Some((c.parseKey(sessionKey).value, ProofMap(r.sessionSign, Signers(c, keys), |keys|)))))
  {
    forall i | 0 <= i < |keys| ensures ProvesSessionKey(c, sessionKey, r.sessionSign[i], Signers(c, keys)[i]) {
      assert r.sessionSign[i] == c.sign(keys[i], c.keyDigest(sessionKey));
    }
  }

  lemma FirstAndOthers(c: Crypto, signatures: seq<Bytes>, message: Bytes)
    requires signatures != [] && RecoverEach(c, signatures, message).Some?
    ensures RecoverIdentity(c, signatures[0], message).Some? && RecoverEach(c, signatures[1..], message).Some?
    ensures RecoverEach(c, signatures, message).value ==
            [RecoverIdentity(c, signatures[0], message).value] + RecoverEach(c, signatures[1..], message).value
  {
  }

  /** The map holds, for this node, a signature of the session key by one of the node's keys. */
  ghost predicate Proven(c: Crypto, sessionKey: Bytes, proofs: map<NodeId, Bytes>, id: NodeId) {
    id in proofs && exists key: PublicKey ::
      c.nodeId(key) == id && c.recover(proofs[id], c.keyDigest(sessionKey)) == Some(key)
  }

  lemma {:induction false} ProofsCollected(c: Crypto, r: Response, identities: seq<Identity>, k: nat, i: nat)
    requires |r.sessionSign| == |identities| && AllProve(c, r, identities) && i < k <= |identities|
    requires forall j :: 0 <= j < |identities| ==> identities[j].nodeId == c.nodeId(identities[j].key)
    ensures Proven(c, r.sessionKey, ProofMap(r.sessionSign, identities, k), identities[i].nodeId)
    decreases k
  {
    assert ProvesSessionKey(c, r.sessionKey, r.sessionSign[k - 1], identities[k - 1]);
    if identities[k - 1].nodeId != identities[i].nodeId {
      ProofsCollected(c, r, identities, k - 1, i);
    }
  }

  // ---------------------------------------------------------------- what recovery proves

  lemma {:induction false} RecoveredEach(c: Crypto, signatures: seq<Bytes>, message: Bytes)
    ensures match RecoverEach(c, signatures, message)
            case Some(ids) =>
              && |ids| == |signatures|
              && forall i :: 0 <= i < |ids| ==> RecoverIdentity(c, signatures[i], message) == Some(ids[i])
            case None =>
              exists i :: 0 <= i < |signatures| && RecoverIdentity(c, signatures[i], message).None?
  {
    if signatures != [] {
      RecoveredEach(c, signatures[1..], message);
      var rest := RecoverEach(c, signatures[1..], message);
      assert forall i :: 0 < i < |signatures| ==> signatures[i] == signatures[1..][i - 1];
      if RecoverIdentity(c, signatures[0], message).Some? && rest.None? {
        var i :| 0 <= i < |signatures[1..]| && RecoverIdentity(c, signatures[1..][i], message).None?;
        assert RecoverIdentity(c, signatures[i + 1], message).None?;
      }
    }
  }

  /** Whatever is recovered is proven: the solution meets the difficulty, every identity signed it, in
      order, the first is the expected node if one is expected, and if a session key is returned every
      identity signed that as well. */
  lemma RecoveredIsProven(c: Crypto, challenge: Bytes, difficulty: nat, response: Option<Response>,
                          remote: Option<NodeId>)
    requires Recover(c, challenge, difficulty, response, remote).Ok?
    ensures response.Some?
    ensures var r, got := response.value, Recover(c, challenge, difficulty, response, remote).value;
            && Verify(c, challenge, difficulty, r.solution) == Some(true)
            && |got.identities| == |r.signatures| > 0
            && (forall i :: 0 <= i < |got.identities| ==>
                  RecoverIdentity(c, r.signatures[i], c.messageDigest(r.solution)) == Some(got.identities[i]))
            && got.defaultId == got.identities[0].nodeId
            && (remote.Some? ==> remote.value == got.defaultId)
            && (got.session.Some? <==> r.sessionSign != [])
            && (got.session.Some? ==>
                  && |r.sessionSign| == |got.identities| && AllProve(c, r, got.identities)
                  && c.parseKey(r.sessionKey) == Some(got.session.value.0))
  {
    var r := response.value;
    var message := c.messageDigest(r.solution);
    RecoveredEach(c, r.signatures[1..], message);
    var got := Recover(c, challenge, difficulty, response, remote).value;
    forall i | 0 <= i < |got.identities|
      ensures RecoverIdentity(c, r.signatures[i], message) == Some(got.identities[i])
    {
      if i > 0 {
        assert r.signatures[i] == r.signatures[1..][i - 1];
      }
    }
  }

  // ---------------------------------------------------------------- exactly what is accepted

  /** Signature `i` reveals the signer of the solution. */
  predicate Signed(c: Crypto, r: Response, i: nat, identity: Identity)
    requires i < |r.signatures|
  {
    && |r.signatures[i]| == SIGNATURE_SIZE && identity.nodeId == c.nodeId(identity.key)
    && c.recover(r.signatures[i], c.messageDigest(r.solution)) == Some(identity.key)
  }

  /** The response proves possession of the keys of `ids`: it solves the challenge, each of them signed the
      solution, in order, and if there are session key proofs, each of them signed the session key. */
  ghost predicate Proves(c: Crypto, challenge: Bytes, difficulty: nat, r: Response, ids: seq<Identity>) {
    && (exists n: nat :: n <= MAX_U64 && Solves(c, challenge, difficulty, n) && r.solution == Solution(c, challenge, n))
    && |ids| == |r.signatures| > 0
    && (forall i :: 0 <= i < |ids| ==> Signed(c, r, i, ids[i]))
    && (r.sessionSign != [] ==>
          && |r.sessionSign| == |ids| && c.parseKey(r.sessionKey).Some?
          && forall i :: 0 <= i < |ids| ==> ProvesSessionKey(c, r.sessionKey, r.sessionSign[i], ids[i]))
  }

  lemma SolvedIffVerified(c: Crypto, challenge: Bytes, difficulty: nat, solution: Bytes)
    requires DigestOk(c)
    ensures Verify(c, challenge, difficulty, solution) == Some(true) <==>
            exists n: nat ::
              n <= MAX_U64 && Solves(c, challenge, difficulty, n) && solution == Solution(c, challenge, n)
  {
    if Verify(c, challenge, difficulty, solution) == Some(true) {
      VerifiedIsSolution(c, challenge, difficulty, solution);
    }
    if n: nat :| n <= MAX_U64 && Solves(c, challenge, difficulty, n) && solution == Solution(c, challenge, n) {
      SolutionVerifies(c, challenge, difficulty, n);
    }
  }

  lemma SignedIffRecovered(c: Crypto, r: Response, i: nat, identity: Identity)
    requires i < |r.signatures|
    ensures Signed(c, r, i, identity) <==>
            RecoverIdentity(c, r.signatures[i], c.messageDigest(r.solution)) == Some(identity)
  {
  }

  lemma ProvenIsRecovered(c: Crypto, challenge: Bytes, difficulty: nat, r: Response, ids: seq<Identity>,
                          remote: Option<NodeId>)
    requires DigestOk(c) && Proves(c, challenge, difficulty, r, ids)
    requires remote.Some? ==> remote.value == ids[0].nodeId
    ensures Recover(c, challenge, difficulty, Some(r), remote).Ok?
    ensures Recover(c, challenge, difficulty, Some(r), remote).value.identities == ids
  {
    var message := c.messageDigest(r.solution);
    SolvedIffVerified(c, challenge, difficulty, r.solution);
    forall i | 0 <= i < |ids| ensures RecoverIdentity(c, r.signatures[i], message) == Some(ids[i]) {
      SignedIffRecovered(c, r, i, ids[i]);
    }
    RecoveredEach(c, r.signatures[1..], message);
    var others := RecoverEach(c, r.signatures[1..], message);
    assert forall i :: 0 <= i < |r.signatures| - 1 ==> r.signatures[1..][i] == r.signatures[i + 1];
    assert [ids[0]] + others.value == ids;
  }

  /** Recovery succeeds with the identities `ids` exactly if the response proves possession of their keys, and
      the first is the expected node if one is expected. */
  lemma RecoversExactlyProven(c: Crypto, challenge: Bytes, difficulty: nat, r: Response, ids: seq<Identity>,
                              remote: Option<NodeId>)
    requires DigestOk(c)
    ensures var got := Recover(c, challenge, difficulty, Some(r), remote);
            got.Ok? && got.value.identities == ids <==>
            Proves(c, challenge, difficulty, r, ids) && (remote.Some? ==> remote.value == ids[0].nodeId)
  {
    var got := Recover(c, challenge, difficulty, Some(r), remote);
    if got.Ok? && got.value.identities == ids {
      RecoveredIsProven(c, challenge, difficulty, Some(r), remote);
      SolvedIffVerified(c, challenge, difficulty, r.solution);
      forall i | 0 <= i < |ids| ensures Signed(c, r, i, ids[i]) {
        SignedIffRecovered(c, r, i, ids[i]);
      }
    }
    if Proves(c, challenge, difficulty, r, ids) && (remote.Some? ==> remote.value == ids[0].nodeId) {
      ProvenIsRecovered(c, challenge, difficulty, r, ids, remote);
    }
  }
}
