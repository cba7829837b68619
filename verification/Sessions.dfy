/**
 * What the shell does with every session it is handed (desktop/main.js, the sign-in protocol): the
 * ready lines it takes, the sign-ins it asks for, and the list of sessions still to be signed out,
 * over the sign-in record of `SignIn`.
 *
 * A `Shell` is the module's variables beside the record, and every main-process call in progress
 * with its captured locals. Each event is one step between awaits. `received`, `sent` and `dropped`
 * are the history: every token handed to the shell, every one whose sign-out request went out, and
 * every one whose sign-out was asked while no gateway could be asked.
 */
module Sessions {
  import opened Options
  import opened WindowTraffic
  import opened SignIn

  /** What `askWindowDoor`'s caller still has to do once it is back: nothing, or the rest of a
      follow, with the session the hold replaced and the port the windows left. */
  datatype Then = Nothing | TheFollow(earlier: Option<string>, left: Option<int>)

  datatype Flow =
    | FirstAdopting(call: nat)
    | FollowAdopting(call: nat, left: Option<int>)
    | DoorHolding(call: nat, gen: nat, follows: bool, left: Option<int>)
    | DoorAsking(gen: nat, next: Then)
    | DoorAdopting(call: nat, mine: nat, signed: string, next: Then)
    | SigningOut(list: seq<string>, next: Then)
    | MovedSigningIn(gen: nat)
    | BackSigningIn(gen: nat)
    | BackAdopting(call: nat, mine: nat, signed: string)
    | AgainSigningIn(gen: nat, at: Option<int>)
    | AgainAdopting(call: nat, mine: nat, signed: string)
    | QuitReleasing(call: nat)
    | QuitSendingHeld
    | Finished

  datatype Shell = Shell(
    sign: World, localPort: Option<int>, kept: seq<string>, gone: bool, watchWithheld: bool,
    flows: seq<Flow>, received: set<string>, sent: set<string>, dropped: set<string>)

  const InitShell := Shell(Init, None, [], false, false, [], {}, {}, {})

  /** A session the shell is handed: a ready line's, or a door's answer with its pair. */
  datatype Grant = Grant(ready: Ready, pair: Option<string>, start: Option<Start>)

  datatype ShellEvent =
    | ReadyLine(grant: Grant, stale: bool, settled: bool)
    | UsesRunning(grant: Grant)
    | MovedAsks
    | BackAsks
    | AgainAsks
    | ResumeAsksDoor
    | SignsOutKept
    | Answers(flow: nat, grant: Grant)
    | Fails(flow: nat)
    | Returns(flow: nat)
    | SignsOutNext(flow: nat)
    | Quits
    | Watch(gone: bool, withheld: bool)
    | SignInEvent(event: Event)

  // ── The pieces ──

  /** `keepToSignOut`: a session with a token, once. */
  function Keep(kept: seq<string>, token: Option<string>): seq<string> {
    if token.Some? && token.value != "" && token.value !in kept then kept + [token.value] else kept
  }

  /** `signOutLocalSession`: the request goes out only to a gateway that can be asked. */
  function SendSignOut(s: Shell, token: string): Shell {
    if s.localPort.None? || s.gone || s.watchWithheld then s.(dropped := s.dropped + {token})
    else s.(sent := s.sent + {token})
  }

  function HeldToken(w: World): string {
    if w.held.Some? then w.held.value.token else ""
  }

  function TokenOf(session: Option<Session>): Option<string> {
    if session.Some? && session.value.token != "" then Some(session.value.token) else None
  }

  /** The session a call to the record hands back, or will. */
  function HandsBack(call: Call): Option<string> {
    match call
    case AdoptLeaving(_, previous, _, _) => TokenOf(Some(previous))
    case AdoptWriting(_, _, handed, _) => TokenOf(handed)
    case AdoptSettling(handed, _) => TokenOf(handed)
    case AdoptClearing(handed, _) => TokenOf(handed)
    case HoldLeaving(previous, _) => TokenOf(Some(previous))
    case ReleaseForgetting(session, _) => TokenOf(Some(session))
    case Returned(Replaced(session)) => TokenOf(session)
    case Returned(Released(session)) => TokenOf(session)
    case _ => None
  }

  function Receive(s: Shell, grant: Grant): Shell {
    s.(received := s.received + if grant.ready.token != "" then {grant.ready.token} else {})
  }

  /** `localSignIn.adopt`, up to its first await; the flow awaits call `|s.sign.calls|`. */
  function SignAdopt(s: Shell, grant: Grant): Shell {
    s.(sign := Step(s.sign, Adopt(Some(grant.ready), grant.pair, grant.start)))
  }

  /** `adoptLocalGateway`: the record adopts the session, or holds it while the door is asked. */
  function TakeGateway(s: Shell, grant: Grant, follows: bool): (Shell, Flow) {
    var at := |s.sign.calls|;
    var s1 := s.(localPort := Some(grant.ready.port), gone := false);
    if grant.ready.windowDoor && grant.pair.None? then
      var s2 := s1.(sign := Step(s.sign, HoldForShell(Some(grant.ready), grant.start)));
      (s2, DoorHolding(at, s2.sign.gen, follows, s.localPort))
    else
      (SignAdopt(s1, grant), if follows then FollowAdopting(at, s.localPort) else FirstAdopting(at))
  }

  /** `signOutKept`'s start: the list is taken, to be gone through. */
  function TakeKept(s: Shell, next: Then): (Shell, Flow) {
    (s.(kept := []), SigningOut(s.kept, next))
  }

  /** The rest of `followRestartedGateway`, from after the gateway was taken. */
  function FollowOn(s: Shell, earlier: Option<string>, left: Option<int>): (Shell, Flow) {
    var s1 := if left.Some? && left != s.localPort then
                s.(sign := Step(s.sign, RetireOrigin(Some(LocalOrigin(left.value))))) else s;
    TakeKept(s1.(kept := Keep(s1.kept, earlier)), Nothing)
  }

  function DoorIsBack(s: Shell, next: Then): (Shell, Flow) {
    match next
    case Nothing => (s, Finished)
    case TheFollow(earlier, left) => FollowOn(s, earlier, left)
  }

  /** A sign-in's answer that lands once the generation moved is kept, to be signed out. */
  function KeepAnswer(s: Shell, grant: Grant): Shell {
    s.(kept := Keep(s.kept, Some(grant.ready.token)))
  }

  /** After an adopt whose generation moved: what it replaced, and what it signed in unless held. */
  function KeepBoth(s: Shell, handed: Option<string>, signed: string): Shell {
    var kept := Keep(s.kept, handed);
    s.(kept := if HeldToken(s.sign) != signed then Keep(kept, Some(signed)) else kept)
  }

  function Start(s: Shell, flow: Flow): Shell {
    s.(flows := s.flows + [flow])
  }

  // ── What an event does to the flow it concerns ──

  /** A sign-in the flow asked for is answered with a session. */
  function AnswerFlow(s0: Shell, flow: Flow, grant: Grant): (Shell, Flow) {
    var s := Receive(s0, grant);
    var at := |s.sign.calls|;
    match flow
    case DoorAsking(gen, next) =>
      if s.sign.gen != gen then DoorIsBack(KeepAnswer(s, grant), next)
      else var s1 := SignAdopt(s, grant); (s1, DoorAdopting(at, s1.sign.gen, grant.ready.token, next))
    case MovedSigningIn(gen) =>
      if s.sign.gen != gen then (KeepAnswer(s, grant), Finished)
      else TakeGateway(s.(watchWithheld := false), grant, s.localPort.Some?)
    case BackSigningIn(gen) =>
      if s.sign.gen != gen then (KeepAnswer(s, grant), Finished)
      else var s1 := SignAdopt(s, grant); (s1, BackAdopting(at, s1.sign.gen, grant.ready.token))
    case AgainSigningIn(gen, from) =>
      if s.sign.gen != gen || s.localPort != from then (KeepAnswer(s, grant), Finished)
      else
        var s1 := SignAdopt(s, grant).(watchWithheld := false);
        (s1, AgainAdopting(at, s1.sign.gen, grant.ready.token))
    case _ => (s0, flow)
  }

  /** The call to the record the flow awaits, if it awaits one. */
  function Awaits(flow: Flow): Option<nat> {
    match flow
    case FirstAdopting(call) => Some(call)
    case FollowAdopting(call, _) => Some(call)
    case DoorHolding(call, _, _, _) => Some(call)
    case DoorAdopting(call, _, _, _) => Some(call)
    case BackAdopting(call, _, _) => Some(call)
    case AgainAdopting(call, _, _) => Some(call)
    case QuitReleasing(call) => Some(call)
    case _ => None
  }

  /** That call is back, handing *handed* to be signed out. */
  function ReturnFlow(s: Shell, flow: Flow, handed: Option<string>): (Shell, Flow) {
    match flow
    case FirstAdopting(_) => (s, Finished)
    case FollowAdopting(_, left) => FollowOn(s, handed, left)
    case DoorHolding(_, gen, follows, left) =>
      (s, DoorAsking(gen, if follows then TheFollow(handed, left) else Nothing))
    case DoorAdopting(_, mine, signed, next) =>
      if s.sign.gen != mine then DoorIsBack(KeepBoth(s, handed, signed), next)
      else TakeKept(s.(kept := Keep(s.kept, handed)), next)
    case BackAdopting(_, mine, signed) =>
      (if s.sign.gen != mine then KeepBoth(s, handed, signed) else s.(kept := Keep(s.kept, handed)), Finished)
    case AgainAdopting(_, mine, signed) =>
      if s.sign.gen != mine then (KeepBoth(s, handed, signed), Finished)
      else TakeKept(s.(kept := Keep(s.kept, handed)), Nothing)
    case QuitReleasing(_) =>
      (if handed.Some? then SendSignOut(s, handed.value) else s, QuitSendingHeld)
    case _ => (s, flow)
  }

  /** The next session of a list being signed out, or the quit's own once its request is answered. */
  function SignOutFlow(s: Shell, flow: Flow): (Shell, Flow) {
    match flow
    case SigningOut(list, next) =>
      if list == [] then DoorIsBack(s, next)
      else
        (if s.gone || s.watchWithheld then s.(kept := Keep(s.kept, Some(list[0]))) else SendSignOut(s, list[0]),
         SigningOut(list[1..], next))
    case QuitSendingHeld => TakeKept(s, Nothing)
    case _ => (s, flow)
  }

  function FailFlow(s: Shell, flow: Flow): (Shell, Flow) {
    match flow
    case DoorAsking(_, next) => DoorIsBack(s, next)
    case MovedSigningIn(_) => (s, Finished)
    case BackSigningIn(_) => (s, Finished)
    case AgainSigningIn(_, _) => (s, Finished)
    case _ => (s, flow)
  }

  function Put(result: (Shell, Flow), i: nat): Shell
    requires i < |result.0.flows|
  {
    result.0.(flows := result.0.flows[i := result.1])
  }

  function Begin(result: (Shell, Flow)): Shell {
    Start(result.0, result.1)
  }

  predicate IsBack(s: Shell, i: nat) {
    && i < |s.flows| && Awaits(s.flows[i]).Some? && Awaits(s.flows[i]).value < |s.sign.calls|
    && s.sign.calls[Awaits(s.flows[i]).value].Returned?
  }

  function TakeReadyLine(s0: Shell, grant: Grant, stale: bool, settled: bool): Shell {
    var s := Receive(s0, grant);
    if stale then KeepAnswer(s, grant)
    else Begin(TakeGateway(s.(watchWithheld := false), grant, settled || s.localPort.Some?))
  }

  /** What one event does. A take-back, a Sign In Again and a resumed ask follow a gateway taken
      before: nothing is watched, and no row or resume offers them, until then. */
  function ShellStep(s: Shell, event: ShellEvent): Shell {
    match event
    case ReadyLine(grant, stale, settled) => TakeReadyLine(s, grant, stale, settled)
    case UsesRunning(grant) =>
      Begin(TakeGateway(Receive(s, grant).(watchWithheld := false), grant, s.localPort.Some?))
    case MovedAsks => Start(s, MovedSigningIn(s.sign.gen))
    case BackAsks => if s.localPort.Some? then Start(s, BackSigningIn(s.sign.gen)) else s
    case AgainAsks => if s.localPort.Some? then Start(s, AgainSigningIn(s.sign.gen, s.localPort)) else s
    case ResumeAsksDoor => if s.localPort.Some? then Start(s, DoorAsking(s.sign.gen, Nothing)) else s
    case SignsOutKept => Begin(TakeKept(s, Nothing))
    case Answers(i, grant) => if i < |s.flows| then Put(AnswerFlow(s, s.flows[i], grant), i) else s
    case Fails(i) => if i < |s.flows| then Put(FailFlow(s, s.flows[i]), i) else s
    case Returns(i) =>
      if IsBack(s, i) then
        Put(ReturnFlow(s, s.flows[i], HandsBack(s.sign.calls[Awaits(s.flows[i]).value])), i)
      else s
    case SignsOutNext(i) => if i < |s.flows| then Put(SignOutFlow(s, s.flows[i]), i) else s
    case Quits => Start(s.(sign := Step(s.sign, Release)), QuitReleasing(|s.sign.calls|))
    case Watch(gone, withheld) => s.(gone := gone, watchWithheld := withheld)
    case SignInEvent(e) =>
      if e.Adopt? || e.HoldForShell? || e.Release? then s else s.(sign := Step(s.sign, e))
  }

  /** The shell after the first *n* of *events*. */
  function ShellAt(events: seq<ShellEvent>, n: nat): Shell
    requires n <= |events|
  {
    if n == 0 then InitShell else ShellStep(ShellAt(events, n - 1), events[n - 1])
  }
}
