/**
 The tasks that hold a session permit: what they do next, which transition they ask for, and how
 their program counter constrains the peer's state.

 A task is suspended between any two of its steps. What the network answers, how many addresses
 there are and when a timeout fires is left open: a `Choice` supplies it.
 */
module Drivers {
  import opened SessionStates

  datatype Method = Direct | Reverse | Relay

  /** Why the permit was taken. */
  datatype Kind =
    | Resolve(dontUse: set<Method>)   // connect to a peer, falling back from method to method
    | Server                          // connect to the relay server
    | Accept                          // answer an incoming handshake
    | AcceptReverse                   // answer an incoming handshake that we asked for

  datatype Pc =
    | Start(m: Method)
    | Shake(next: InitState, addrs: nat)   // about to enter `next`; `addrs` further addresses remain
    | RestartAddr(addrs: nat)
    | RestartMethod(m: Method)             // about to give up a method; `m` comes next
    | Await(start: nat)                    // waiting for the peer; subscribed at announcement `start`
    | RelayRegister
    | Endpoints(session: SessionRef)
    | Accepting(next: InitState)
    | Done(result: Outcome)

  datatype Choice = Fail | Go(n: nat)

  /** A step is either internal or a transition whose verdict decides how to continue. */
  datatype Move = Stop | Internal(pc: Pc) | Ask(req: Request, accepted: Pc, refused: Pc)

  function Succ(i: InitState): InitState {
    match i
    case ConnectIntent => Initializing
    case Initializing => ChallengeHandshake
    case ChallengeHandshake => HandshakeResponse
    case HandshakeResponse => ChallengeVerified
    case ChallengeVerified => SessionRegistered
    case SessionRegistered => Ready
    case Ready => Ready
  }

  function Entry(kind: Kind): Pc {
    match kind
    case Resolve(_) => Start(Direct)
    case Server => Shake(Initializing, 0)
    case Accept => Accepting(Initializing)
    case AcceptReverse => Accepting(Initializing)
  }

  function Excluded(kind: Kind): set<Method> {
    if kind.Resolve? then kind.dontUse else {}
  }

  function GiveUp(kind: Kind, addrs: nat): Pc {
    if kind.Server? then Done(Failure) else RestartAddr(addrs)
  }

  /** The next step of a permit holder. `log` is what it can have received from the peer's notifier. */
  function Next(kind: Kind, pc: Pc, choice: Choice, log: seq<SessionState>): Move {
    match pc
    case Start(Direct) =>
      if Direct in Excluded(kind) then Internal(Start(Reverse))
      else if choice.Fail? || choice.n == 0 then Internal(RestartMethod(Reverse))
      else Internal(Shake(Initializing, choice.n - 1))
    case Shake(next, addrs) =>
      if choice.Fail? then Internal(GiveUp(kind, addrs))
      else
        var on := if next != Ready then Shake(Succ(next), addrs)
                  else if kind.Server? then Endpoints(choice.n)
                  else Done(Success(choice.n));
        Ask(ToOutgoing(next), on, GiveUp(kind, addrs))
    case Endpoints(session) =>
      Internal(Done(if choice.Fail? then Failure else Success(session)))
    case RestartAddr(addrs) =>
      Ask(To(RestartConnect),
          if addrs == 0 then RestartMethod(Reverse) else Shake(Initializing, addrs - 1),
          RestartMethod(Reverse))
    case RestartMethod(m) =>
      Ask(To(RestartConnect), Start(m), Done(Failure))
    case Start(Reverse) =>
      if Reverse in Excluded(kind) then Internal(Start(Relay))
      else if choice.Fail? then Internal(RestartMethod(Relay))
      else Ask(To(ReverseConnection(Awaiting)), Await(|log|), RestartMethod(Relay))
    case Await(start) =>
      if choice.Go? && start <= choice.n < |log| && FinishedOk(log[choice.n])
      then Internal(Done(log[choice.n].reverse.result))
      else Internal(RestartMethod(Relay))
    case Start(Relay) =>
      if Relay in Excluded(kind) then Internal(Done(Failure))
      else Ask(To(Relayed(RelayInitializing)), RelayRegister, Done(Failure))
    case RelayRegister =>
      if choice.Fail? then Internal(Done(Failure))
      else Ask(To(Relayed(RelayReady)), Done(Success(choice.n)), Done(Failure))
    case Accepting(next) =>
      if choice.Fail? then Internal(Done(Failure))
      else Ask(ToIncoming(next),
               if next == Ready then Done(Success(choice.n)) else Accepting(Succ(next)),
               Done(Failure))
    case Done(_) => Stop
  }

  predicate FinishedOk(s: SessionState) {
    s.ReverseConnection? && s.reverse.Finished? && s.reverse.result.Success?
  }

  // ---------------------------------------------------------------- dropping a permit

  datatype DropStep =
    | Check            // is there anything left to finish?
    | Fail1 | Clean1 | Unregister1                  // the attempt failed
    | Forget | Publish                              // the attempt succeeded
    | Clean2 | Unregister2 | Fail2                  // publishing was refused
    | FinishReverse

  datatype Phase = Driving(pc: Pc) | Dropping(step: DropStep, result: Outcome) | Dropped

  // ---------------------------------------------------------------- agreement with the state

  /** The states a permit holder at `pc` can find its own, unclosed generation in. */
  predicate AgreePc(kind: Kind, pc: Pc, s: SessionState) {
    match pc
    case Start(Direct) => kind.Resolve? && s == Outgoing(ConnectIntent)
    case Start(_) => kind.Resolve? && s.BetweenMethods()
    case Shake(next, _) =>
      && (kind.Resolve? || kind.Server?)
      && Direct !in Excluded(kind)
      && next != ConnectIntent
      && (if next == Initializing then s.BetweenMethods() else s.Outgoing? && s.init.Allowed(next))
    case RestartAddr(_) => kind.Resolve? && Direct !in kind.dontUse && (s.Outgoing? || s.RestartConnect?)
    case RestartMethod(Relay) => kind.Resolve? && (s.BetweenMethods() || s.ReverseConnection?)
    case RestartMethod(Reverse) => kind.Resolve? && (s.Outgoing? || s.RestartConnect?)
    case RestartMethod(Direct) => false
    case Await(_) => kind.Resolve? && Reverse !in kind.dontUse && s.ReverseConnection?
    case RelayRegister => kind.Resolve? && Relay !in kind.dontUse && s == Relayed(RelayInitializing)
    case Endpoints(_) => kind.Server? && s == Outgoing(Ready)
    case Accepting(next) => kind.Accept? && next != ConnectIntent && s.Incoming? && s.init.Allowed(next)
    case Done(Success(_)) => s.EstablishReady()
    case Done(Failure) => s.Busy()
  }

  /** An excluded method never shows in the state, and only an accepted handshake is `Incoming`. */
  predicate AgreeKind(kind: Kind, s: SessionState) {
    && !kind.AcceptReverse?
    && (s.Incoming? ==> kind.Accept?)
    && (kind.Accept? ==> s.Incoming? || s.FailedEstablish? || s.Established?)
    && (s.Outgoing? && s.init != ConnectIntent ==> Direct !in Excluded(kind))
    && (s.ReverseConnection? ==> kind.Resolve? && Reverse !in Excluded(kind))
    && (s.Relayed? ==> kind.Resolve? && Relay !in Excluded(kind))
  }

  predicate AgreePhase(kind: Kind, phase: Phase, s: SessionState) {
    && AgreeKind(kind, s)
    && match phase
       case Driving(pc) => AgreePc(kind, pc, s)
       case Dropping(Check, result) => if result.Success? then s.EstablishReady() else s.Busy()
       case Dropping(Fail1, _) => s.Busy()
       case Dropping(Clean1, _) => s.FailedEstablish?
       case Dropping(Unregister1, _) => s.FailedEstablish?
       case Dropping(Forget, result) => result.Success? && s.EstablishReady()
       case Dropping(Publish, result) => result.Success? && s.EstablishReady()
       case Dropping(_, _) => false
       case Dropped => s.Established?
  }

  /** The waiter inside the reverse method has missed nothing: whatever verdict was announced since
      it subscribed is still the state. */
  predicate AwaitOk(phase: Phase, s: SessionState, log: seq<SessionState>) {
    phase.Driving? && phase.pc.Await? ==>
      && phase.pc.start <= |log|
      && forall i :: phase.pc.start <= i < |log| && log[i].ReverseConnection? && log[i].reverse.Finished?
                     ==> s == log[i]
  }

  /** The holder has reached or passed its reverse attempt, and so will not start another one. */
  predicate ReverseBegun(phase: Phase) {
    phase.Driving? ==>
      match phase.pc
      case Await(_) => true
      case RestartMethod(m) => m == Relay
      case Start(m) => m == Relay
      case RelayRegister => true
      case Done(_) => true
      case _ => false
  }

  // ---------------------------------------------------------------- the order of the methods

  /** Which method a resolving task is at: direct, reverse, relayed. */
  function Stage(pc: Pc): nat {
    match pc
    case Start(Direct) => 0
    case Shake(_, _) => 0
    case RestartAddr(_) => 0
    case RestartMethod(Direct) => 0
    case RestartMethod(Reverse) => 0
    case Start(Reverse) => 1
    case Await(_) => 1
    case RestartMethod(Relay) => 1
    case Start(Relay) => 2
    case RelayRegister => 2
    case _ => 3
  }

  /** A resolving task that is not refused goes through the methods one by one: it moves on to the next
      one, ends with a session, or gives up, and it gives up only after the last. */
  predicate InOrder(pc: Pc, next: Pc) {
    Stage(pc) <= Stage(next) <= Stage(pc) + 1 || (next.Done? && next.result.Success?)
  }

  lemma MethodsInOrder(kind: Kind, pc: Pc, choice: Choice, log: seq<SessionState>)
    requires kind.Resolve? && !pc.Endpoints? && !pc.Accepting?
    ensures match Next(kind, pc, choice, log)
            case Stop => pc.Done?
            case Internal(next) => InOrder(pc, next)
            case Ask(_, accepted, _) => InOrder(pc, accepted)
  {
  }

  // ---------------------------------------------------------------- every method and every address is tried

  /** Where a task goes that is not refused a transition. */
  function Onward(kind: Kind, pc: Pc, choice: Choice, log: seq<SessionState>): Pc {
    match Next(kind, pc, choice, log)
    case Stop => pc
    case Internal(next) => next
    case Ask(_, accepted, _) => accepted
  }

  /** What the environment supplies in one step. */
  datatype Input = Input(choice: Choice, log: seq<SessionState>)

  /** The program counters of a task that is never refused. */
  predicate IsPath(kind: Kind, pcs: seq<Pc>, inputs: seq<Input>) {
    && |pcs| == |inputs| + 1
    && forall i :: 0 <= i < |inputs| ==> pcs[i + 1] == Onward(kind, pcs[i], inputs[i].choice, inputs[i].log)
  }

  lemma PathTail(kind: Kind, pcs: seq<Pc>, inputs: seq<Input>)
    requires IsPath(kind, pcs, inputs) && inputs != []
    ensures IsPath(kind, pcs[1..], inputs[1..])
    ensures pcs[1] == Onward(kind, pcs[0], inputs[0].choice, inputs[0].log)
  {
    forall i | 0 <= i < |inputs| - 1
      ensures pcs[1..][i + 1] == Onward(kind, pcs[1..][i], inputs[1..][i].choice, inputs[1..][i].log)
    {
      assert pcs[i + 2] == Onward(kind, pcs[i + 1], inputs[i + 1].choice, inputs[i + 1].log);
    }
  }

  /** Handshakes begun: each is entered at its first state. */
  function Handshakes(pcs: seq<Pc>): nat {
    if pcs == [] then 0
    else (if pcs[0].Shake? && pcs[0].next == Initializing then 1 else 0) + Handshakes(pcs[1..])
  }

  predicate AtDirect(pc: Pc) {
    (pc.Shake? && pc.next != ConnectIntent) || pc.RestartAddr?
  }

  /** How many handshakes the direct method still has to begin. */
  function AddressesLeft(pc: Pc): nat {
    match pc
    case Shake(next, addrs) => addrs + (if next == Initializing then 1 else 0)
    case RestartAddr(addrs) => addrs
    case _ => 0
  }

  /** A task in the direct method leaves it with a session, or after a handshake with each address left. */
  lemma {:induction false} EveryAddressIsTried(kind: Kind, pcs: seq<Pc>, inputs: seq<Input>)
    requires kind.Resolve? && IsPath(kind, pcs, inputs) && AtDirect(pcs[0])
    requires forall i :: 0 <= i < |pcs| - 1 ==> AtDirect(pcs[i])
    requires !AtDirect(pcs[|pcs| - 1])
    ensures var last := pcs[|pcs| - 1];
            || (last.Done? && last.result.Success?)
            || (last == RestartMethod(Reverse) && Handshakes(pcs) == AddressesLeft(pcs[0]))
    decreases |pcs|
  {
    PathTail(kind, pcs, inputs);
    var rest := pcs[1..];
    if AtDirect(pcs[1]) {
      EveryAddressIsTried(kind, rest, inputs[1..]);
      assert rest[|rest| - 1] == pcs[|pcs| - 1];
    } else {
      assert rest == [pcs[1]] && Handshakes(rest) == 0;
    }
  }

  /** The direct method begins with as many addresses as there are, and is not begun without any. */
  lemma DirectBegins(kind: Kind, choice: Choice, log: seq<SessionState>)
    requires kind.Resolve?
    ensures var pc := Onward(kind, Start(Direct), choice, log);
            if Direct in kind.dontUse then pc == Start(Reverse)
            else if choice.Go? && choice.n > 0 then AtDirect(pc) && AddressesLeft(pc) == choice.n
            else pc == RestartMethod(Reverse)
  {
  }

  predicate BeforeReverse(pc: Pc) {
    pc == Start(Direct) || AtDirect(pc) || pc == RestartMethod(Reverse) || pc == Start(Reverse)
  }

  predicate BeforeRelay(pc: Pc) {
    BeforeReverse(pc) || pc.Await? || pc == RestartMethod(Relay) || pc == Start(Relay)
  }

  lemma {:induction false} ComesToReverse(kind: Kind, pcs: seq<Pc>, inputs: seq<Input>) returns (i: nat)
    requires kind.Resolve? && IsPath(kind, pcs, inputs) && BeforeReverse(pcs[0])
    requires pcs[|pcs| - 1] == Done(Failure)
    ensures i + 1 < |pcs| && pcs[i] == Start(Reverse)
    decreases |pcs|
  {
    if pcs[0] == Start(Reverse) {
      i := 0;
    } else {
      PathTail(kind, pcs, inputs);
      if pcs[1].Done? {
        DoneStays(kind, pcs[1..], inputs[1..]);
      }
      var j := ComesToReverse(kind, pcs[1..], inputs[1..]);
      i := j + 1;
    }
  }

  lemma {:induction false} ComesToRelay(kind: Kind, pcs: seq<Pc>, inputs: seq<Input>) returns (i: nat)
    requires kind.Resolve? && IsPath(kind, pcs, inputs) && BeforeRelay(pcs[0])
    requires pcs[|pcs| - 1] == Done(Failure)
    ensures i + 1 < |pcs| && pcs[i] == Start(Relay)
    decreases |pcs|
  {
    if pcs[0] == Start(Relay) {
      i := 0;
    } else {
      PathTail(kind, pcs, inputs);
      if pcs[1].Done? {
        DoneStays(kind, pcs[1..], inputs[1..]);
      }
      var j := ComesToRelay(kind, pcs[1..], inputs[1..]);
      i := j + 1;
    }
  }

  lemma {:induction false} DoneStays(kind: Kind, pcs: seq<Pc>, inputs: seq<Input>)
    requires IsPath(kind, pcs, inputs) && pcs[0].Done?
    ensures pcs[|pcs| - 1] == pcs[0]
    decreases |pcs|
  {
    if |pcs| > 1 {
      PathTail(kind, pcs, inputs);
      DoneStays(kind, pcs[1..], inputs[1..]);
    }
  }

  /** A resolving task that is never refused gives up only after it has tried every method that is not
      excluded: a handshake with each address, a reverse connection unless the environment forbids it, and a
      relayed connection. */
  lemma GivesUpOnlyAfterTrying(kind: Kind, pcs: seq<Pc>, inputs: seq<Input>) returns (i: nat, j: nat)
    requires kind.Resolve? && IsPath(kind, pcs, inputs) && pcs[0] == Start(Direct) && pcs[|pcs| - 1] == Done(Failure)
    ensures Direct !in kind.dontUse && inputs[0].choice.Go? ==> Handshakes(pcs) == inputs[0].choice.n
    ensures Direct in kind.dontUse || inputs[0].choice.Fail? ==> Handshakes(pcs) == 0
    ensures i + 1 < |pcs| && pcs[i] == Start(Reverse)
    ensures Reverse !in kind.dontUse ==>
              pcs[i + 1].Await? || (inputs[i].choice.Fail? && pcs[i + 1] == RestartMethod(Relay))
    ensures j + 1 < |pcs| && pcs[j] == Start(Relay)
    ensures Relay !in kind.dontUse ==> pcs[j + 1] == RelayRegister
  {
    i := ComesToReverse(kind, pcs, inputs);
    j := ComesToRelay(kind, pcs, inputs);
    assert pcs[i + 1] == Onward(kind, pcs[i], inputs[i].choice, inputs[i].log);
    assert pcs[j + 1] == Onward(kind, pcs[j], inputs[j].choice, inputs[j].log);
    PathTail(kind, pcs, inputs);
    DirectBegins(kind, inputs[0].choice, inputs[0].log);
    CountsToTheEnd(kind, pcs[1..], inputs[1..]);
  }

  /** From any point on, a task that gives up begins as many handshakes as it has addresses left. */
  lemma {:induction false} CountsToTheEnd(kind: Kind, pcs: seq<Pc>, inputs: seq<Input>)
    requires kind.Resolve? && IsPath(kind, pcs, inputs) && pcs[0] != Start(Direct) && pcs[0] != RestartMethod(Direct)
    requires pcs[0].Shake? ==> pcs[0].next != ConnectIntent
    requires pcs[|pcs| - 1] == Done(Failure)
    ensures Handshakes(pcs) == AddressesLeft(pcs[0])
    decreases |pcs|
  {
    if |pcs| > 1 {
      PathTail(kind, pcs, inputs);
      CountsToTheEnd(kind, pcs[1..], inputs[1..]);
      if pcs[1].Done? {
        DoneStays(kind, pcs[1..], inputs[1..]);
      }
    } else {
      assert Handshakes(pcs[1..]) == 0;
    }
  }

  // ---------------------------------------------------------------- what goes well ends well

  function Distance(i: InitState): nat {
    match i
    case ConnectIntent => 6
    case Initializing => 5
    case ChallengeHandshake => 4
    case HandshakeResponse => 3
    case ChallengeVerified => 2
    case SessionRegistered => 1
    case Ready => 0
  }

  /** How many steps a handshake takes that nothing goes wrong in. */
  function StepsLeft(kind: Kind, pc: Pc): nat {
    match pc
    case Shake(next, _) => Distance(next) + (if kind.Server? then 2 else 1)
    case Accepting(next) => Distance(next) + 1
    case Endpoints(_) => 1
    case RelayRegister => 1
    case _ => 0
  }

  predicate OnTheWay(pc: Pc, n: nat) {
    pc.Shake? || pc.Accepting? || pc.RelayRegister? || pc == Endpoints(n) || pc == Done(Success(n))
  }

  /** A handshake or relayed connection that nothing goes wrong in succeeds, with the session it was given. */
  lemma {:induction false} GoodHandshakeSucceeds(kind: Kind, pcs: seq<Pc>, inputs: seq<Input>, n: nat)
    requires IsPath(kind, pcs, inputs) && OnTheWay(pcs[0], n) && |inputs| >= StepsLeft(kind, pcs[0])
    requires forall i :: 0 <= i < |inputs| ==> inputs[i].choice == Go(n)
    ensures pcs[|pcs| - 1] == Done(Success(n))
    decreases |pcs|
  {
    if |pcs| > 1 {
      PathTail(kind, pcs, inputs);
      GoodHandshakeSucceeds(kind, pcs[1..], inputs[1..], n);
    }
  }

  /** A connection to the relay server succeeds only after its endpoints have been learned. */
  lemma {:induction false} ServerLearnsEndpoints(pcs: seq<Pc>, inputs: seq<Input>, n: nat) returns (i: nat)
    requires IsPath(Server, pcs, inputs) && pcs[0].Shake? && pcs[|pcs| - 1] == Done(Success(n))
    ensures i < |pcs| && pcs[i] == Endpoints(n)
    decreases |pcs|
  {
    PathTail(Server, pcs, inputs);
    if pcs[1].Shake? {
      var j := ServerLearnsEndpoints(pcs[1..], inputs[1..], n);
      i := j + 1;
    } else {
      i := 1;
      if pcs[1].Done? {
        DoneStays(Server, pcs[1..], inputs[1..]);
      } else {
        PathTail(Server, pcs[1..], inputs[1..]);
        DoneStays(Server, pcs[1..][1..], inputs[1..][1..]);
      }
    }
  }

  /** A wait for a reverse connection that has heard a good verdict ends with the session it reports. */
  lemma GoodVerdictSucceeds(kind: Kind, start: nat, i: nat, log: seq<SessionState>, n: nat)
    requires start <= i < |log| && log[i] == ReverseConnection(Finished(Success(n)))
    ensures Onward(kind, Await(start), Go(i), log) == Done(Success(n))
  {
  }

  // ---------------------------------------------------------------- what a step does to agreement

  /** The move keeps the holder in agreement; a transition it asks for is in the table. */
  predicate GoodMove(kind: Kind, move: Move, s: SessionState, log: seq<SessionState>) {
    match move
    case Stop => true
    case Internal(pc) => AgreePhase(kind, Driving(pc), s) && AwaitOk(Driving(pc), s, log)
    case Ask(req, accepted, _) =>
      && s.Busy()
      && s.Allowed(Resolved(s, req))
      && AgreePhase(kind, Driving(accepted), Resolved(s, req))
      && AwaitOk(Driving(accepted), Resolved(s, req), log + [Resolved(s, req)])
  }

  /** Whatever the holder does: it never asks to close or reopen a view, and it never goes back
      behind its reverse attempt. */
  predicate MoveShape(phase: Phase, move: Move) {
    match move
    case Stop => true
    case Internal(pc) => ReverseBegun(phase) ==> ReverseBegun(Driving(pc))
    case Ask(req, accepted, refused) =>
      && !Closing.Allowed(Resolved(Closing, req))
      && (req.To? ==> !req.state.Closing? && !req.state.Closed?)
      && (ReverseBegun(phase) ==> ReverseBegun(Driving(accepted)) && ReverseBegun(Driving(refused)))
  }

  lemma NextShape(kind: Kind, pc: Pc, choice: Choice, log: seq<SessionState>)
    ensures MoveShape(Driving(pc), Next(kind, pc, choice, log))
  {
  }

  /** Every transition a permit holder asks for in its own unclosed generation is accepted, and
      whatever it does next still agrees with the state. */
  lemma NextGood(kind: Kind, pc: Pc, choice: Choice, s: SessionState, log: seq<SessionState>)
    requires AgreePhase(kind, Driving(pc), s)
    requires AwaitOk(Driving(pc), s, log)
    ensures GoodMove(kind, Next(kind, pc, choice, log), s, log)
  {
    match Next(kind, pc, choice, log) {
      case Stop =>
      case Internal(_) => InternalAgrees(kind, pc, choice, s, log);
      case Ask(_, _, _) =>
        AskAllowed(kind, pc, choice, s, log);
        AcceptedAgrees(kind, pc, choice, s, log);
        DrivingMeansBusy(kind, pc, s);
    }
  }

  lemma AskAllowed(kind: Kind, pc: Pc, choice: Choice, s: SessionState, log: seq<SessionState>)
    requires AgreePhase(kind, Driving(pc), s)
    requires Next(kind, pc, choice, log).Ask?
    ensures s.Allowed(Resolved(s, Next(kind, pc, choice, log).req))
  {
    match pc {
      case Shake(next, _) =>
        if next != Initializing {
          assert s == Outgoing(s.init) && s.init.Allowed(next);
        }
      case Accepting(next) =>
        assert s == Incoming(s.init) && s.init.Allowed(next);
      case _ =>
    }
  }

  lemma AcceptedAgrees(kind: Kind, pc: Pc, choice: Choice, s: SessionState, log: seq<SessionState>)
    requires AgreePhase(kind, Driving(pc), s)
    requires Next(kind, pc, choice, log).Ask?
    ensures var move := Next(kind, pc, choice, log);
            && AgreePhase(kind, Driving(move.accepted), Resolved(s, move.req))
            && AwaitOk(Driving(move.accepted), Resolved(s, move.req), log + [Resolved(s, move.req)])
  {
  }

  lemma InternalAgrees(kind: Kind, pc: Pc, choice: Choice, s: SessionState, log: seq<SessionState>)
    requires AgreePhase(kind, Driving(pc), s)
    requires AwaitOk(Driving(pc), s, log)
    requires Next(kind, pc, choice, log).Internal?
    ensures AgreePhase(kind, Driving(Next(kind, pc, choice, log).pc), s)
    ensures AwaitOk(Driving(Next(kind, pc, choice, log).pc), s, log)
  {
  }

  lemma DrivingMeansBusy(kind: Kind, pc: Pc, s: SessionState)
    requires AgreePhase(kind, Driving(pc), s)
    ensures s.Busy()
  {
  }

  /** The holder tolerates every step of the reverse handshake it waits for. */
  lemma ReverseStepAgrees(kind: Kind, phase: Phase, s: SessionState, t: SessionState, log: seq<SessionState>)
    requires AgreePhase(kind, phase, s) && AwaitOk(phase, s, log)
    requires s.ReverseConnection? && t.ReverseConnection? && s.Allowed(t)
    ensures AgreePhase(kind, phase, t) && AwaitOk(phase, t, log + [t])
  {
  }

  /** Only a holder that has begun its reverse attempt sees a reverse connection. */
  lemma ReverseMeansBegun(kind: Kind, phase: Phase, s: SessionState)
    requires AgreePhase(kind, phase, s) && s.ReverseConnection?
    ensures kind.Resolve? && ReverseBegun(phase)
  {
  }

  /** The handshake steps of a reverse permit. */
  lemma NextReverse(pc: Pc, choice: Choice, log: seq<SessionState>)
    requires pc.Done? || (pc.Accepting? && pc.next != ConnectIntent)
    ensures match Next(AcceptReverse, pc, choice, log)
            case Stop => true
            case Internal(next) => next.Done?
            case Ask(req, accepted, refused) =>
              && req.ToIncoming? && req.init != ConnectIntent && refused.Done?
              && (accepted.Done? || (accepted.Accepting? && accepted.next != ConnectIntent))
  {
  }

  /** A successful attempt can be published and a failed one recorded. */
  lemma DropAgrees(kind: Kind, step: DropStep, result: Outcome, s: SessionState, session: SessionRef)
    requires AgreePhase(kind, Dropping(step, result), s)
    ensures step == Fail1 ==> s.Busy() && AgreePhase(kind, Dropping(Clean1, result), FailedEstablish)
    ensures step == Publish ==> && s.Busy() && s.Allowed(Established(session))
                                && AgreePhase(kind, Dropped, Established(session))
    ensures !step.Clean2? && !step.Unregister2? && !step.Fail2? && !step.FinishReverse?
  {
  }
}
