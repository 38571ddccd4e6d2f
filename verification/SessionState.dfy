/**
 The session state machine of one peer: its states, its transition table, and what the table
 guarantees about every recorded history of states.

 Error payloads are dropped from the failure states: the table never looks at them.
 */
module SessionStates {
  import opened Wrappers

  /** Identity of a `DirectSession` object. */
  type SessionRef = nat

  datatype Outcome = Success(session: SessionRef) | Failure

  datatype InitState =
    | ConnectIntent
    | Initializing
    | ChallengeHandshake
    | HandshakeResponse
    | ChallengeVerified
    | SessionRegistered
    | Ready
  {
    predicate Allowed(next: InitState) {
      match next
      case ConnectIntent => false
      case Initializing => ConnectIntent?
      case ChallengeHandshake => Initializing?
      case HandshakeResponse => ChallengeHandshake?
      case ChallengeVerified => HandshakeResponse?
      case SessionRegistered => ChallengeVerified?
      case Ready => SessionRegistered?
    }
  }

  datatype RelayedState = RelayInitializing | RelayReady
  {
    predicate Allowed(next: RelayedState) {
      this == RelayInitializing && next == RelayReady
    }
  }

  datatype ReverseState = Awaiting | InProgress(init: InitState) | Finished(result: Outcome)
  {
    predicate Allowed(next: ReverseState) {
      match next
      case Awaiting => false
      case InProgress(i) => (Awaiting? && i == ConnectIntent) || (InProgress? && init.Allowed(i))
      case Finished(Success(_)) => this == InProgress(Ready)
      case Finished(Failure) => InProgress?
    }
  }

  datatype SessionState =
    | Outgoing(init: InitState)
    | Incoming(init: InitState)
    | ReverseConnection(reverse: ReverseState)
    | Relayed(relayed: RelayedState)
    | Established(session: SessionRef)
    | FailedEstablish
    | Closing
    | Closed
    | RestartConnect
  {
    /** Some initialization method is running or about to run. */
    predicate Busy() {
      Outgoing? || Incoming? || ReverseConnection? || Relayed? || RestartConnect?
    }

    /** Initialization is complete; only the permit's owner has yet to publish the session. */
    predicate EstablishReady() {
      || this == Outgoing(Ready)
      || this == Incoming(Ready)
      || this == Relayed(RelayReady)
      || (ReverseConnection? && reverse.Finished? && reverse.result.Success?)
    }

    /** No method has been entered yet, or the last one has been given up. */
    predicate BetweenMethods() {
      this == Outgoing(ConnectIntent) || RestartConnect?
    }

    /** The transition table, grouped by target. */
    predicate Allowed(next: SessionState) {
      match next
      case FailedEstablish => Busy() || FailedEstablish?
      case Established(_) => EstablishReady() || Established?
      case RestartConnect => Busy()
      case Closing => Established?
      case Closed => Closing?
      case Outgoing(i) =>
        || (i == ConnectIntent && (Closed? || FailedEstablish?))
        || (i == Initializing && RestartConnect?)
        || (Outgoing? && init.Allowed(i))
      case Incoming(i) =>
        || (i == ConnectIntent && (Closed? || FailedEstablish?))
        || (Incoming? && init.Allowed(i))
      case ReverseConnection(r) =>
        || (r == Awaiting && BetweenMethods())
        || (ReverseConnection? && reverse.Allowed(r))
      case Relayed(r) =>
        || (r == RelayInitializing && BetweenMethods())
        || (Relayed? && relayed.Allowed(r))
    }
  }

  /** What a caller asks for. An incoming step is translated by the current state: the handshake
      code does not know whether it answers a reverse-connection request. */
  datatype Request = To(state: SessionState) | ToOutgoing(init: InitState) | ToIncoming(init: InitState)

  function Resolved(s: SessionState, req: Request): SessionState {
    match req
    case To(t) => t
    case ToOutgoing(i) => Outgoing(i)
    case ToIncoming(i) => if s.ReverseConnection? then ReverseConnection(InProgress(i)) else Incoming(i)
  }

  /** The new state, or None when the table refuses the request. */
  function Transition(s: SessionState, req: Request): Option<SessionState> {
    if s.Allowed(Resolved(s, req)) then Some(Resolved(s, req)) else None
  }

  /** The transitions one by one. */
  predicate Listed(a: SessionState, b: SessionState) {
    // initialization can fail in any of its states
    || (a.Relayed? && b.FailedEstablish?)
    || (a.Incoming? && b.FailedEstablish?)
    || (a.Outgoing? && b.FailedEstablish?)
    || (a.ReverseConnection? && b.FailedEstablish?)
    || (a.RestartConnect? && b.FailedEstablish?)
    || (a.FailedEstablish? && b.FailedEstablish?)
    // a method that is ready or a finished reverse connection can be established
    || (a == Incoming(Ready) && b.Established?)
    || (a == Outgoing(Ready) && b.Established?)
    || (a == Relayed(RelayReady) && b.Established?)
    || (a.ReverseConnection? && a.reverse.Finished? && a.reverse.result.Success? && b.Established?)
    // reverse and relayed connections start from the intent or after another method
    || (a == Outgoing(ConnectIntent) && b == ReverseConnection(Awaiting))
    || (a == RestartConnect && b == ReverseConnection(Awaiting))
    || (a == Outgoing(ConnectIntent) && b == Relayed(RelayInitializing))
    || (a == RestartConnect && b == Relayed(RelayInitializing))
    // a closed or failed session can be started again
    || (a.Closed? && b == Outgoing(ConnectIntent))
    || (a.Closed? && b == Incoming(ConnectIntent))
    || (a.FailedEstablish? && b == Outgoing(ConnectIntent))
    || (a.FailedEstablish? && b == Incoming(ConnectIntent))
    || (a.Established? && b.Established?)
    // any method can be given up for another one
    || (a.Relayed? && b.RestartConnect?)
    || (a.Incoming? && b.RestartConnect?)
    || (a.Outgoing? && b.RestartConnect?)
    || (a.ReverseConnection? && b.RestartConnect?)
    || (a.RestartConnect? && b.RestartConnect?)
    || (a == RestartConnect && b == Outgoing(Initializing))
    // closing
    || (a.Established? && b.Closing?)
    || (a.Closing? && b.Closed?)
    // steps within a method
    || (a.Incoming? && b.Incoming? && a.init.Allowed(b.init))
    || (a.Outgoing? && b.Outgoing? && a.init.Allowed(b.init))
    || (a.Relayed? && b.Relayed? && a.relayed.Allowed(b.relayed))
    || (a.ReverseConnection? && b.ReverseConnection? && a.reverse.Allowed(b.reverse))
  }

  /** The table grouped by target and the list say the same. */
  lemma AllowedIsListed(a: SessionState, b: SessionState)
    ensures a.Allowed(b) <==> Listed(a, b)
  {
    match b {
      case Outgoing(_) => assert a.Allowed(b) <==> Listed(a, b);
      case Incoming(_) => assert a.Allowed(b) <==> Listed(a, b);
      case ReverseConnection(_) => assert a.Allowed(b) <==> Listed(a, b);
      case Relayed(_) => assert a.Allowed(b) <==> Listed(a, b);
      case Established(_) => assert a.Allowed(b) <==> Listed(a, b);
      case FailedEstablish => assert a.Allowed(b) <==> Listed(a, b);
      case Closing => assert a.Allowed(b) <==> Listed(a, b);
      case Closed => assert a.Allowed(b) <==> Listed(a, b);
      case RestartConnect => assert a.Allowed(b) <==> Listed(a, b);
    }
  }

  // Every state change is announced, so the sequence of announcements is the history of states.
  // Besides the table, two operations change the state unconditionally: starting to close moves
  // to `Closing` and retirement moves to `Closed`.

  /** The state before announcement `i`; a new peer is `Closed`. */
  function Before(log: seq<SessionState>, i: nat): SessionState
    requires i <= |log|
  {
    if i == 0 then Closed else log[i - 1]
  }

  predicate Follows(a: SessionState, b: SessionState) {
    a.Allowed(b) || b.Closing? || b.Closed?
  }

  predicate IsHistory(log: seq<SessionState>) {
    forall i {:trigger Before(log, i)} :: 0 <= i < |log| ==> Follows(Before(log, i), log[i])
  }

  lemma HistoryExtends(log: seq<SessionState>, s: SessionState)
    requires IsHistory(log)
    requires Follows(Before(log, |log|), s)
    ensures IsHistory(log + [s])
    ensures Before(log + [s], |log| + 1) == s
  {
    var more := log + [s];
    forall i | 0 <= i < |more| ensures Follows(Before(more, i), more[i]) {
      if i < |log| {
        assert Before(more, i) == Before(log, i);
      }
    }
  }

  /** The handshake from `Initializing` to `Ready`, each step wrapped by `wrap`. */
  function Handshake(wrap: InitState -> SessionState): seq<SessionState> {
    [wrap(Initializing), wrap(ChallengeHandshake), wrap(HandshakeResponse),
     wrap(ChallengeVerified), wrap(SessionRegistered), wrap(Ready)]
  }

  const OutgoingHandshake: seq<SessionState> := Handshake(i => Outgoing(i))
  const IncomingHandshake: seq<SessionState> := [Incoming(ConnectIntent)] + Handshake(i => Incoming(i))
  const RelayedHandshake: seq<SessionState> := [Relayed(RelayInitializing), Relayed(RelayReady)]

  function ReverseHandshake(session: SessionRef): seq<SessionState> {
    [ReverseConnection(Awaiting), ReverseConnection(InProgress(ConnectIntent))]
    + Handshake(i => ReverseConnection(InProgress(i)))
    + [ReverseConnection(Finished(Success(session)))]
  }

  /** The announcements just before position `i` are exactly `run`, without gaps. */
  predicate EndsWith(log: seq<SessionState>, i: nat, run: seq<SessionState>) {
    |run| <= i <= |log| && log[i - |run|..i] == run
  }

  /** Whoever enters `Established` has just completed one whole method. */
  ghost predicate CompletedMethod(log: seq<SessionState>, i: nat) {
    || EndsWith(log, i, OutgoingHandshake)
    || EndsWith(log, i, IncomingHandshake)
    || EndsWith(log, i, RelayedHandshake)
    || exists s :: EndsWith(log, i, ReverseHandshake(s))
  }

  lemma EstablishedOnlyAfterWholeMethod(log: seq<SessionState>, i: nat)
    requires IsHistory(log)
    requires i < |log| && log[i].Established? && !Before(log, i).Established?
    ensures CompletedMethod(log, i)
  {
    var s := Before(log, i);
    assert s.Allowed(log[i]);
    assert i > 0 && s.EstablishReady();
    match s {
      case Outgoing(_) => OutgoingBack(log, i);
      case Incoming(_) => IncomingBack(log, i);
      case Relayed(_) => RelayedBack(log, i);
      case ReverseConnection(_) => ReverseBack(log, i, s.reverse.result.session);
    }
  }

  lemma OutgoingBack(log: seq<SessionState>, i: nat)
    requires IsHistory(log) && 0 < i <= |log| && log[i - 1] == Outgoing(Ready)
    ensures EndsWith(log, i, OutgoingHandshake)
  {
    assert Follows(Before(log, i - 1), log[i - 1]);
    assert Follows(Before(log, i - 2), log[i - 2]);
    assert Follows(Before(log, i - 3), log[i - 3]);
    assert Follows(Before(log, i - 4), log[i - 4]);
    assert Follows(Before(log, i - 5), log[i - 5]);
    assert log[i - 6..i] == OutgoingHandshake;
  }

  lemma IncomingBack(log: seq<SessionState>, i: nat)
    requires IsHistory(log) && 0 < i <= |log| && log[i - 1] == Incoming(Ready)
    ensures EndsWith(log, i, IncomingHandshake)
  {
    assert Follows(Before(log, i - 1), log[i - 1]);
    assert Follows(Before(log, i - 2), log[i - 2]);
    assert Follows(Before(log, i - 3), log[i - 3]);
    assert Follows(Before(log, i - 4), log[i - 4]);
    assert Follows(Before(log, i - 5), log[i - 5]);
    assert Follows(Before(log, i - 6), log[i - 6]);
    assert log[i - 7..i] == IncomingHandshake;
  }

  lemma RelayedBack(log: seq<SessionState>, i: nat)
    requires IsHistory(log) && 0 < i <= |log| && log[i - 1] == Relayed(RelayReady)
    ensures EndsWith(log, i, RelayedHandshake)
  {
    assert Follows(Before(log, i - 1), log[i - 1]);
    assert log[i - 2..i] == RelayedHandshake;
  }

  /** In a reverse handshake every step has exactly one predecessor. */
  lemma ReverseStepBack(log: seq<SessionState>, i: nat, next: InitState, prev: InitState)
    requires IsHistory(log) && 0 < i <= |log| && log[i - 1] == ReverseConnection(InProgress(next))
    requires prev.Allowed(next)
    ensures i > 1 && log[i - 2] == ReverseConnection(InProgress(prev))
  {
    assert Follows(Before(log, i - 1), log[i - 1]);
  }

  lemma ReverseBack(log: seq<SessionState>, i: nat, s: SessionRef)
    requires IsHistory(log) && 0 < i <= |log|
    requires log[i - 1] == ReverseConnection(Finished(Success(s)))
    ensures EndsWith(log, i, ReverseHandshake(s))
  {
    assert i > 1 && log[i - 2] == ReverseConnection(InProgress(Ready)) by {
      assert Follows(Before(log, i - 1), log[i - 1]);
    }
    ReverseStepBack(log, i - 1, Ready, SessionRegistered);
    ReverseStepBack(log, i - 2, SessionRegistered, ChallengeVerified);
    ReverseStepBack(log, i - 3, ChallengeVerified, HandshakeResponse);
    ReverseStepBack(log, i - 4, HandshakeResponse, ChallengeHandshake);
    ReverseStepBack(log, i - 5, ChallengeHandshake, Initializing);
    ReverseStepBack(log, i - 6, Initializing, ConnectIntent);
    AwaitingBack(log, i - 7);
    var run := log[i - 9..i];
    assert |run| == 9 == |ReverseHandshake(s)|;
    assert run[0] == log[i - 9] && run[1] == log[i - 8] && run[2] == log[i - 7];
    assert run[3] == log[i - 6] && run[4] == log[i - 5] && run[5] == log[i - 4];
    assert run[6] == log[i - 3] && run[7] == log[i - 2] && run[8] == log[i - 1];
  }

  lemma AwaitingBack(log: seq<SessionState>, i: nat)
    requires IsHistory(log) && 0 < i <= |log|
    requires log[i - 1] == ReverseConnection(InProgress(ConnectIntent))
    ensures i > 1 && log[i - 2] == ReverseConnection(Awaiting)
  {
    assert Follows(Before(log, i - 1), log[i - 1]);
  }

  /** A lock was granted at `j`: the peer was `Closed` or had failed, and somebody declared intent. */
  predicate GrantedAt(log: seq<SessionState>, j: nat) {
    && j < |log|
    && (log[j] == Outgoing(ConnectIntent) || log[j] == Incoming(ConnectIntent))
    && (Before(log, j).Closed? || Before(log, j).FailedEstablish?)
  }

  /** Work in progress always goes back, without interruption, to a granted lock. */
  lemma {:induction false} BusySinceGrant(log: seq<SessionState>, i: nat) returns (j: nat)
    requires IsHistory(log) && i < |log| && log[i].Busy()
    ensures j <= i && GrantedAt(log, j)
    ensures forall k :: j <= k <= i ==> log[k].Busy()
  {
    assert Follows(Before(log, i), log[i]);
    if log[i] == Outgoing(ConnectIntent) || log[i] == Incoming(ConnectIntent) {
      j := i;
    } else {
      j := BusySinceGrant(log, i - 1);
    }
  }

  /** No session is established without a lock granted since the last close or failure. */
  lemma EstablishedSinceGrant(log: seq<SessionState>, i: nat) returns (j: nat)
    requires IsHistory(log)
    requires i < |log| && log[i].Established? && !Before(log, i).Established?
    ensures j < i && GrantedAt(log, j)
    ensures forall k :: j <= k < i ==> log[k].Busy()
  {
    assert Follows(Before(log, i), log[i]);
    j := BusySinceGrant(log, i - 1);
  }
}
