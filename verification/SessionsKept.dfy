/**
 * No session the shell is handed is ever lost, and the one it holds is never one it signs out: over
 * every interleaving of ready lines, moves, losses, door asks, Sign In Again and the quit.
 */
module SessionsKept {
  import opened Options
  import opened SignIn
  import opened Sessions

  // ── Where a session can be ──

  function ToSet(option: Option<string>): set<string> {
    if option.Some? then {option.value} else {}
  }

  /** What call *c* of the record hands back to be signed out. */
  function Hands(w: World, c: nat): set<string> {
    if c < |w.calls| then ToSet(HandsBack(w.calls[c])) else {}
  }

  function OwedByThen(next: Then): set<string> {
    if next.TheFollow? then ToSet(next.earlier) else {}
  }

  /** The sessions in a flow's own locals that it still has to keep or sign out. */
  function Owed(w: World, flow: Flow): set<string> {
    (if Awaits(flow).Some? then Hands(w, Awaits(flow).value) else {}) +
    match flow
    case DoorAsking(_, next) => OwedByThen(next)
    case DoorAdopting(_, _, _, next) => OwedByThen(next)
    case SigningOut(list, next) => (set t | t in list) + OwedByThen(next)
    case _ => {}
  }

  /** The sessions still to be signed out, or signed out: beside the one held, and the flows' own. */
  function Listed(s: Shell): set<string> {
    (set t | t in s.kept) + s.sent + s.dropped
  }

  ghost predicate Placed(s: Shell, token: string) {
    || token == HeldToken(s.sign) || token in s.kept || token in s.sent || token in s.dropped
    || exists i :: 0 <= i < |s.flows| && token in Owed(s.sign, s.flows[i])
  }

  /** What no session still to be signed out may be: unknown, empty, or the one held. */
  function Others(s: Shell): set<string> {
    s.received - {HeldToken(s.sign), ""}
  }

  ghost predicate SignInv(s: Shell) {
    && (forall c: nat | c < |s.sign.calls| :: Hands(s.sign, c) <= Others(s))
    && (HeldToken(s.sign) in s.received || HeldToken(s.sign) == "")
    && (s.localPort.None? ==> s.sign.held.None?)
  }

  /** A session signed in by a flow that may have to keep it. */
  predicate SignedKnown(s: Shell, flow: Flow) {
    match flow
    case DoorAdopting(_, _, signed, _) => signed in s.received + {""}
    case BackAdopting(_, _, signed) => signed in s.received + {""}
    case AgainAdopting(_, _, signed) => signed in s.received + {""}
    case _ => true
  }

  /** The first gateway ever taken replaces nothing, so nothing of it has to be kept. */
  predicate FirstOwesNothing(w: World, flow: Flow) {
    match flow
    case FirstAdopting(call) => Hands(w, call) == {}
    case DoorHolding(call, _, follows, _) => !follows ==> Hands(w, call) == {}
    case _ => true
  }

  predicate FlowShape(s: Shell, flow: Flow) {
    && (Awaits(flow).Some? ==> Awaits(flow).value < |s.sign.calls|)
    && SignedKnown(s, flow)
    && FirstOwesNothing(s.sign, flow)
    && (flow.DoorHolding? || flow.DoorAsking? || flow.BackSigningIn? || flow.AgainSigningIn? ==> s.localPort.Some?)
  }

  ghost predicate FlowInv(s: Shell, flow: Flow) {
    FlowShape(s, flow) && Owed(s.sign, flow) <= Others(s)
  }

  /** The shell's half of the invariant, beside its flows. */
  ghost predicate BaseInv(s: Shell) {
    "" !in s.received && SignInv(s) && Listed(s) <= Others(s)
  }

  ghost predicate ShellInv(s: Shell) {
    && BaseInv(s)
    && (forall i | 0 <= i < |s.flows| :: FlowInv(s, s.flows[i]))
    && (forall t | t in s.received :: Placed(s, t))
  }

  // ── The record's own calls ──

  /** What a step of the record does to the sessions its calls hand back. */
  ghost predicate HandsKept(w: World, next: World) {
    |w.calls| <= |next.calls| && forall c: nat | c < |w.calls| :: Hands(next, c) == Hands(w, c)
  }

  lemma GoOnHands(w: World, call: Call, ok: bool)
    requires HandsBack(call) != Some(HeldToken(w))
    ensures HandsBack(GoOn(w, call, ok).1) == HandsBack(call)
    ensures HeldToken(GoOn(w, call, ok).0) == HeldToken(w) && GoOn(w, call, ok).0.held == w.held
  {
  }

  lemma ResumeHands(w: World, i: nat)
    requires forall c: nat | c < |w.calls| :: HeldToken(w) !in Hands(w, c)
    ensures var next := DoResume(w, i);
            HandsKept(w, next) && |next.calls| == |w.calls| && next.held == w.held
  {
    if CanGoOn(w, i) {
      assert HeldToken(w) !in Hands(w, i);
      GoOnHands(w, w.calls[i], w.landed[w.calls[i].op]);
      hide GoOn;
    }
  }

  lemma WithholdHands(w: World, retire: bool)
    ensures var next := DoWithhold(w, retire); next.held == w.held && Hands(next, |w.calls|) == {}
  {
  }

  lemma LiftHands(w: World, expected: nat, unretire: bool, start: Option<SignIn.Start>)
    ensures var next := DoLift(w, expected, unretire, start); next.held == w.held && Hands(next, |w.calls|) == {}
  {
  }

  lemma EndHands(w: World, stamp: Stamp, defect: bool, retiredToo: bool)
    ensures var next := DoEnd(w, stamp, defect, retiredToo);
            HeldToken(next) == HeldToken(w) && next.held.Some? == w.held.Some? && Hands(next, |w.calls|) == {}
  {
  }

  /** Every other step of the record leaves the held session and what its calls hand back alone. */
  lemma AsideHands(w: World, event: Event)
    requires !event.Adopt? && !event.HoldForShell? && !event.Release?
    requires forall c: nat | c < |w.calls| :: HeldToken(w) !in Hands(w, c)
    ensures var next := Step(w, event);
            && HandsKept(w, next) && HeldToken(next) == HeldToken(w) && next.held.Some? == w.held.Some?
            && (forall c: nat | |w.calls| <= c < |next.calls| :: Hands(next, c) == {})
  {
    hide DoResume, DoWithhold, DoLift, DoEnd;
    match event
    case Resume(i) => ResumeHands(w, i);
    case Withhold(retire) => WithholdHands(w, retire);
    case Lift(expected, unretire, start) => LiftHands(w, expected, unretire, start);
    case End(stamp, defect, retiredToo) => EndHands(w, stamp, defect, retiredToo);
    case _ =>
  }

  /** A sign-in, a hold or a release hands back the session held before it, if that had a token. */
  lemma MovingHands(w: World, event: Event, token: string)
    requires match event
             case Adopt(ready, _, _) => ready.Some? && ready.value.token == token
             case HoldForShell(ready, _) => ready.Some? && ready.value.token == token
             case Release => token == ""
             case _ => false
    requires token == "" || token != HeldToken(w)
    ensures var next := Step(w, event);
            && HandsKept(w, next) && |next.calls| == |w.calls| + 1 && HeldToken(next) == token
            && Hands(next, |w.calls|) == (if HeldToken(w) == "" then {} else {HeldToken(w)})
            && (event.Release? ==> next.held.None?)
  {
  }

  // ── One flow at a time ──

  /** What a step on behalf of one flow, owing *owed* before and *owed1* after, must do for every
      session to stay placed and the held one apart: it answers for all it answered for, and for what
      was just received; the held session is the same, none, or the one just received; and no call of
      the record hands back another than before. */
  ghost predicate Conserves(s: Shell, owed: set<string>, s1: Shell, owed1: set<string>) {
    && s.received <= s1.received && s1.flows == s.flows && (s.localPort.Some? ==> s1.localPort.Some?)
    && Listed(s) + owed + {HeldToken(s.sign)} + (s1.received - s.received) <= Listed(s1) + owed1 + {HeldToken(s1.sign), ""}
    && HandsKept(s.sign, s1.sign)
    && HeldToken(s1.sign) in {HeldToken(s.sign), ""} + (s1.received - s.received)
    && BaseInv(s1) && owed1 <= Others(s1)
  }

  lemma ConservesOn(s: Shell, owed: set<string>, s1: Shell, owed1: set<string>, s2: Shell, owed2: set<string>)
    requires Conserves(s, owed, s1, owed1) && Conserves(s1, owed1, s2, owed2)
    ensures Conserves(s, owed, s2, owed2)
  {
  }

  ghost predicate FlowConserves(s: Shell, flow: Flow, result: (Shell, Flow)) {
    Conserves(s, Owed(s.sign, flow), result.0, Owed(result.0.sign, result.1)) && FlowShape(result.0, result.1)
  }

  lemma OtherFlowKeeps(s: Shell, s1: Shell, flow: Flow)
    requires FlowInv(s, flow) && HandsKept(s.sign, s1.sign) && s.received <= s1.received && "" !in s.received
    requires s.localPort.Some? ==> s1.localPort.Some?
    requires HeldToken(s1.sign) in {HeldToken(s.sign), ""} + (s1.received - s.received)
    ensures FlowInv(s1, flow) && Owed(s1.sign, flow) == Owed(s.sign, flow)
  {
  }

  /** A step that conserves what one flow answers for keeps the whole invariant. */
  lemma PutKeeps(s: Shell, i: nat, result: (Shell, Flow))
    requires ShellInv(s) && i < |s.flows| && FlowConserves(s, s.flows[i], result)
    ensures ShellInv(Put(result, i))
  {
    var next := Put(result, i);
    forall j | 0 <= j < |next.flows| ensures FlowInv(next, next.flows[j]) {
      if j != i {
        OtherFlowKeeps(s, result.0, s.flows[j]);
      }
    }
    forall t | t in next.received ensures Placed(next, t) {
      if t in s.received && t != HeldToken(s.sign) && t !in Listed(s) && t !in Owed(s.sign, s.flows[i]) {
        var j :| 0 <= j < |s.flows| && t in Owed(s.sign, s.flows[j]);
        OtherFlowKeeps(s, result.0, s.flows[j]);
        assert t in Owed(next.sign, next.flows[j]);
      } else {
        assert t in Listed(next) + Owed(next.sign, next.flows[i]) + {HeldToken(next.sign), ""};
      }
    }
  }

  /** A flow that begins: what it answers for is what the shell did before it. */
  lemma BeginKeeps(s: Shell, result: (Shell, Flow))
    requires ShellInv(s) && FlowConserves(s, Finished, result)
    ensures ShellInv(Begin(result))
  {
    var s1 := s.(flows := s.flows + [Finished]);
    forall t | t in s1.received ensures Placed(s1, t) {
      if t != HeldToken(s.sign) && t !in Listed(s) {
        var j :| 0 <= j < |s.flows| && t in Owed(s.sign, s.flows[j]);
        assert t in Owed(s1.sign, s1.flows[j]);
      }
    }
    var r1 := (result.0.(flows := s1.flows), result.1);
    SameConserved(s, s1, result);
    assert ShellInv(s1);
    hide ShellInv, FlowConserves, BaseInv, Placed, Owed;
    PutKeeps(s1, |s.flows|, r1);
    assert Put(r1, |s.flows|) == Begin(result);
  }

  /** What is conserved does not depend on which calls there are. */
  lemma SameConserved(s: Shell, s1: Shell, result: (Shell, Flow))
    requires FlowConserves(s, Finished, result) && s1 == s.(flows := s1.flows)
    ensures FlowConserves(s1, Finished, (result.0.(flows := s1.flows), result.1))
  {
  }

  // ── What each piece of a step does ──

  /** *grant* is a session nobody has handed the shell before. */
  predicate Fresh(s: Shell, grant: Grant) {
    grant.ready.token !in s.received
  }

  function Granted(grant: Grant): set<string> {
    if grant.ready.token != "" then {grant.ready.token} else {}
  }

  lemma ReceiveConserves(s: Shell, grant: Grant, owed: set<string>)
    requires BaseInv(s) && Fresh(s, grant) && owed <= Others(s)
    ensures Conserves(s, owed, Receive(s, grant), owed + Granted(grant))
  {
  }

  lemma KeepConserves(s: Shell, token: Option<string>, owed: set<string>)
    requires BaseInv(s) && owed <= Others(s) && ToSet(token) <= Others(s) + {""}
    ensures Conserves(s, owed + (ToSet(token) - {""}), s.(kept := Keep(s.kept, token)), owed)
  {
  }

  lemma TakeKeptConserves(s: Shell, next: Then, owed: set<string>)
    requires BaseInv(s) && owed <= Others(s)
    ensures Conserves(s, owed, s.(kept := []), owed + set t | t in s.kept)
  {
  }

  lemma SendConserves(s: Shell, token: string, owed: set<string>)
    requires BaseInv(s) && owed <= Others(s) && token in Others(s)
    ensures Conserves(s, owed + {token}, SendSignOut(s, token), owed)
  {
  }

  /** Receiving a session and signing in with it at once: the one held before is handed back. */
  lemma SignInConserves(s: Shell, grant: Grant, event: Event, s1: Shell, owed: set<string>)
    requires BaseInv(s) && Fresh(s, grant) && owed <= Others(s)
    requires event == Adopt(Some(grant.ready), grant.pair, grant.start) || event == HoldForShell(Some(grant.ready), grant.start)
    requires s1.sign == Step(s.sign, event) && s1.localPort.Some?
    requires s1.received == Receive(s, grant).received && s1.flows == s.flows
    requires s1.kept == s.kept && s1.sent == s.sent && s1.dropped == s.dropped
    ensures Conserves(s, owed, s1, owed + Hands(s1.sign, |s.sign.calls|))
    ensures |s1.sign.calls| == |s.sign.calls| + 1
    ensures s.sign.held.None? ==> Hands(s1.sign, |s.sign.calls|) == {}
  {
    MovingHands(s.sign, event, grant.ready.token);
    hide Step;
    forall c: nat | c < |s1.sign.calls| ensures Hands(s1.sign, c) <= Others(s1) {
      if c < |s.sign.calls| {
        assert Hands(s1.sign, c) == Hands(s.sign, c);
      }
    }
  }

  lemma RetireConserves(s: Shell, origin: Option<WindowTraffic.Origin>, owed: set<string>)
    requires BaseInv(s) && owed <= Others(s)
    ensures Conserves(s, owed, s.(sign := Step(s.sign, RetireOrigin(origin))), owed)
  {
    AsideHands(s.sign, RetireOrigin(origin));
  }

  // ── Each flow's step ──

  /** A session kept, and the whole list then taken to be signed out. */
  lemma KeepThenTakeConserves(s: Shell, token: Option<string>, owed: set<string>)
    requires BaseInv(s) && owed <= Others(s) && ToSet(token) <= Others(s) && "" !in ToSet(token)
    ensures var kept := Keep(s.kept, token);
            Conserves(s, owed + ToSet(token), s.(kept := []), owed + set t | t in kept)
  {
    var sK := s.(kept := Keep(s.kept, token));
    KeepConserves(s, token, owed);
    assert ToSet(token) - {""} == ToSet(token);
    TakeKeptConserves(sK, Nothing, owed);
    hide Conserves;
    ConservesOn(s, owed + ToSet(token), sK, owed, s.(kept := []), owed + set t | t in sK.kept);
  }

  lemma FollowOnConserves(s: Shell, earlier: Option<string>, left: Option<int>)
    requires BaseInv(s) && ToSet(earlier) <= Others(s)
    ensures var (s1, flow1) := FollowOn(s, earlier, left);
            Conserves(s, ToSet(earlier), s1, Owed(s1.sign, flow1)) && FlowShape(s1, flow1)
  {
    hide Step;
    var (s1, flow1) := FollowOn(s, earlier, left);
    var list := set t | t in Keep(s.kept, earlier);
    assert Owed(s1.sign, flow1) == {} + list;
    assert {} + ToSet(earlier) == ToSet(earlier);
    if left.Some? && left != s.localPort {
      var s0 := s.(sign := Step(s.sign, RetireOrigin(Some(WindowTraffic.LocalOrigin(left.value)))));
      RetireConserves(s, Some(WindowTraffic.LocalOrigin(left.value)), ToSet(earlier));
      assert BaseInv(s0) && ToSet(earlier) <= Others(s0);
      hide Conserves;
      KeepThenTakeConserves(s0, earlier, {});
      ConservesOn(s, ToSet(earlier), s0, ToSet(earlier), s1, Owed(s1.sign, flow1));
    } else {
      hide Conserves;
      KeepThenTakeConserves(s, earlier, {});
    }
  }

  lemma DoorIsBackConserves(s: Shell, next: Then)
    requires BaseInv(s) && OwedByThen(next) <= Others(s)
    ensures var (s1, flow1) := DoorIsBack(s, next);
            Conserves(s, OwedByThen(next), s1, Owed(s1.sign, flow1)) && FlowShape(s1, flow1)
  {
    if next.TheFollow? {
      FollowOnConserves(s, next.earlier, next.left);
    }
  }

  /** An answer that came too late is kept, and the door's caller goes on. */
  lemma LateAnswerConserves(s: Shell, grant: Grant, next: Then)
    requires BaseInv(s) && Fresh(s, grant) && OwedByThen(next) <= Others(s)
    ensures var s1 := KeepAnswer(Receive(s, grant), grant);
            Conserves(s, OwedByThen(next), s1, OwedByThen(next))
  {
    var owed := OwedByThen(next);
    var s0 := Receive(s, grant);
    ReceiveConserves(s, grant, owed);
    KeepConserves(s0, Some(grant.ready.token), owed);
    ConservesOn(s, owed, s0, owed + Granted(grant), KeepAnswer(s0, grant), owed);
  }

  lemma TakeGatewayConserves(s: Shell, grant: Grant, follows: bool)
    requires BaseInv(s) && Fresh(s, grant) && (s.localPort.Some? ==> follows)
    ensures var (s1, flow1) := TakeGateway(Receive(s, grant).(watchWithheld := false), grant, follows);
            Conserves(s, {}, s1, Owed(s1.sign, flow1)) && FlowShape(s1, flow1)
  {
    var (s1, flow1) := TakeGateway(Receive(s, grant).(watchWithheld := false), grant, follows);
    var event := if grant.ready.windowDoor && grant.pair.None? then HoldForShell(Some(grant.ready), grant.start)
                 else Adopt(Some(grant.ready), grant.pair, grant.start);
    SignInConserves(s, grant, event, s1, {});
  }

  lemma AdoptConserves(s: Shell, grant: Grant, watchWithheld: bool, owed: set<string>)
    requires BaseInv(s) && Fresh(s, grant) && owed <= Others(s) && s.localPort.Some?
    ensures var s1 := SignAdopt(Receive(s, grant), grant).(watchWithheld := watchWithheld);
            && Conserves(s, owed, s1, owed + Hands(s1.sign, |s.sign.calls|))
            && |s.sign.calls| < |s1.sign.calls|
  {
    var s1 := SignAdopt(Receive(s, grant), grant).(watchWithheld := watchWithheld);
    SignInConserves(s, grant, Adopt(Some(grant.ready), grant.pair, grant.start), s1, owed);
  }

  lemma DoorAnswerConserves(s: Shell, gen: nat, next: Then, grant: Grant)
    requires BaseInv(s) && FlowInv(s, DoorAsking(gen, next)) && Fresh(s, grant)
    ensures FlowConserves(s, DoorAsking(gen, next), AnswerFlow(s, DoorAsking(gen, next), grant))
  {
    var (s1, flow1) := AnswerFlow(s, DoorAsking(gen, next), grant);
    assert Owed(s.sign, DoorAsking(gen, next)) == OwedByThen(next);
    if s.sign.gen != gen {
      LateAnswerConserves(s, grant, next);
      var sK := KeepAnswer(Receive(s, grant), grant);
      DoorIsBackConserves(sK, next);
      hide Conserves, DoorIsBack;
      ConservesOn(s, OwedByThen(next), sK, OwedByThen(next), s1, Owed(s1.sign, flow1));
    } else {
      hide Step;
      AdoptConserves(s, grant, s.watchWithheld, OwedByThen(next));
      assert Owed(s1.sign, flow1) == OwedByThen(next) + Hands(s1.sign, |s.sign.calls|);
    }
  }

  lemma MovedAnswerConserves(s: Shell, gen: nat, grant: Grant)
    requires BaseInv(s) && Fresh(s, grant)
    ensures FlowConserves(s, MovedSigningIn(gen), AnswerFlow(s, MovedSigningIn(gen), grant))
  {
    hide Step, TakeGateway;
    if s.sign.gen != gen {
      LateAnswerConserves(s, grant, Nothing);
    } else {
      TakeGatewayConserves(s, grant, s.localPort.Some?);
    }
  }

  lemma BackAnswerConserves(s: Shell, gen: nat, grant: Grant)
    requires BaseInv(s) && FlowInv(s, BackSigningIn(gen)) && Fresh(s, grant)
    ensures FlowConserves(s, BackSigningIn(gen), AnswerFlow(s, BackSigningIn(gen), grant))
  {
    hide Step;
    if s.sign.gen != gen {
      LateAnswerConserves(s, grant, Nothing);
    } else {
      var s1 := SignAdopt(Receive(s, grant), grant);
      var flow1 := BackAdopting(|s.sign.calls|, s1.sign.gen, grant.ready.token);
      assert AnswerFlow(s, BackSigningIn(gen), grant) == (s1, flow1);
      AdoptConserves(s, grant, s.watchWithheld, {});
      assert s1.(watchWithheld := s.watchWithheld) == s1;
      assert Owed(s1.sign, flow1) == {} + Hands(s1.sign, |s.sign.calls|);
    }
  }

  lemma AgainLateConserves(s: Shell, gen: nat, from: Option<int>, grant: Grant)
    requires BaseInv(s) && FlowInv(s, AgainSigningIn(gen, from)) && Fresh(s, grant)
    requires s.sign.gen != gen || s.localPort != from
    ensures FlowConserves(s, AgainSigningIn(gen, from), AnswerFlow(s, AgainSigningIn(gen, from), grant))
  {
    hide Step;
    LateAnswerConserves(s, grant, Nothing);
  }

  lemma AgainAdoptsConserves(s: Shell, gen: nat, from: Option<int>, grant: Grant)
    requires BaseInv(s) && FlowInv(s, AgainSigningIn(gen, from)) && Fresh(s, grant)
    requires s.sign.gen == gen && s.localPort == from
    ensures FlowConserves(s, AgainSigningIn(gen, from), AnswerFlow(s, AgainSigningIn(gen, from), grant))
  {
    hide Step;
    AdoptConserves(s, grant, false, {});
  }

  lemma AgainAnswerConserves(s: Shell, gen: nat, from: Option<int>, grant: Grant)
    requires BaseInv(s) && FlowInv(s, AgainSigningIn(gen, from)) && Fresh(s, grant)
    ensures FlowConserves(s, AgainSigningIn(gen, from), AnswerFlow(s, AgainSigningIn(gen, from), grant))
  {
    hide FlowConserves, AnswerFlow, BaseInv, FlowInv, Fresh;
    if s.sign.gen != gen || s.localPort != from {
      AgainLateConserves(s, gen, from, grant);
    } else {
      AgainAdoptsConserves(s, gen, from, grant);
    }
  }

  lemma SameConserves(s: Shell, flow: Flow)
    requires BaseInv(s) && FlowInv(s, flow)
    ensures FlowConserves(s, flow, (s, flow))
  {
  }

  lemma AnswerConserves(s: Shell, flow: Flow, grant: Grant)
    requires BaseInv(s) && FlowInv(s, flow) && Fresh(s, grant)
    ensures FlowConserves(s, flow, AnswerFlow(s, flow, grant))
  {
    hide FlowConserves;
    match flow {
      case DoorAsking(gen, next) => DoorAnswerConserves(s, gen, next, grant);
      case MovedSigningIn(gen) => MovedAnswerConserves(s, gen, grant);
      case BackSigningIn(gen) => BackAnswerConserves(s, gen, grant);
      case AgainSigningIn(gen, from) => AgainAnswerConserves(s, gen, from, grant);
      case _ => SameConserves(s, flow);
    }
  }

  // ── A call to the record is back ──

  /** After an adopt the generation moved under: what it replaced is kept, and what it signed in
      unless it is still the one held. */
  lemma KeepBothConserves(s: Shell, handed: Option<string>, signed: string, owed: set<string>)
    requires BaseInv(s) && owed <= Others(s) && ToSet(handed) <= Others(s) && "" !in ToSet(handed)
    requires signed in s.received + {""}
    ensures Conserves(s, owed + ToSet(handed), KeepBoth(s, handed, signed), owed)
  {
    var sK := s.(kept := Keep(s.kept, handed));
    KeepConserves(s, handed, owed);
    assert ToSet(handed) - {""} == ToSet(handed);
    if HeldToken(s.sign) != signed {
      KeepConserves(sK, Some(signed), owed);
      assert Conserves(sK, owed, KeepBoth(s, handed, signed), owed);
      hide Conserves;
      ConservesOn(s, owed + ToSet(handed), sK, owed, KeepBoth(s, handed, signed), owed);
    }
  }

  lemma DoorReturnConserves(s: Shell, mine: nat, signed: string, next: Then, handed: Option<string>)
    requires BaseInv(s) && OwedByThen(next) <= Others(s) && ToSet(handed) <= Others(s) && "" !in ToSet(handed)
    requires signed in s.received + {""}
    ensures forall call: nat ::
              var (s1, flow1) := ReturnFlow(s, DoorAdopting(call, mine, signed, next), handed);
              Conserves(s, OwedByThen(next) + ToSet(handed), s1, Owed(s1.sign, flow1)) && FlowShape(s1, flow1)
  {
    var (s1, flow1) := ReturnFlow(s, DoorAdopting(0, mine, signed, next), handed);
    assert forall call: nat :: ReturnFlow(s, DoorAdopting(call, mine, signed, next), handed) == (s1, flow1);
    var owed := OwedByThen(next);
    if s.sign.gen != mine {
      var sK := KeepBoth(s, handed, signed);
      KeepBothConserves(s, handed, signed, owed);
      assert BaseInv(sK) && owed <= Others(sK);
      hide Conserves, DoorIsBack;
      DoorIsBackConserves(sK, next);
      ConservesOn(s, owed + ToSet(handed), sK, owed, s1, Owed(s1.sign, flow1));
    } else {
      KeepThenTakeConserves(s, handed, owed);
      assert Owed(s1.sign, flow1) == owed + set t | t in Keep(s.kept, handed);
    }
  }

  lemma OvertakenReturnConserves(s: Shell, flow: Flow, handed: Option<string>)
    requires (flow.BackAdopting? || flow.AgainAdopting?) && s.sign.gen != flow.mine
    requires BaseInv(s) && ToSet(handed) <= Others(s) && "" !in ToSet(handed) && SignedKnown(s, flow)
    ensures var (s1, flow1) := ReturnFlow(s, flow, handed);
            Conserves(s, ToSet(handed), s1, Owed(s1.sign, flow1)) && FlowShape(s1, flow1)
  {
    hide Conserves, KeepBoth, BaseInv, Others;
    var (s1, flow1) := ReturnFlow(s, flow, handed);
    assert Owed(s1.sign, flow1) == {};
    assert {} + ToSet(handed) == ToSet(handed);
    assert {} <= Others(s);
    KeepBothConserves(s, handed, flow.signed, {});
  }

  lemma AgainReturnConserves(s: Shell, flow: Flow, handed: Option<string>)
    requires flow.AgainAdopting? && s.sign.gen == flow.mine
    requires BaseInv(s) && ToSet(handed) <= Others(s) && "" !in ToSet(handed)
    ensures var (s1, flow1) := ReturnFlow(s, flow, handed);
            Conserves(s, ToSet(handed), s1, Owed(s1.sign, flow1)) && FlowShape(s1, flow1)
  {
    hide Conserves, BaseInv, Others;
    var (s1, flow1) := ReturnFlow(s, flow, handed);
    assert {} + ToSet(handed) == ToSet(handed);
    assert {} <= Others(s);
    KeepThenTakeConserves(s, handed, {});
    assert Owed(s1.sign, flow1) == {} + set t | t in Keep(s.kept, handed);
  }

  lemma BackReturnConserves(s: Shell, flow: Flow, handed: Option<string>)
    requires flow.BackAdopting? && s.sign.gen == flow.mine
    requires BaseInv(s) && ToSet(handed) <= Others(s) && "" !in ToSet(handed)
    ensures var (s1, flow1) := ReturnFlow(s, flow, handed);
            Conserves(s, ToSet(handed), s1, Owed(s1.sign, flow1)) && FlowShape(s1, flow1)
  {
    hide Conserves, BaseInv, Others;
    var (s1, flow1) := ReturnFlow(s, flow, handed);
    assert Owed(s1.sign, flow1) == {};
    assert {} + ToSet(handed) == ToSet(handed);
    assert {} <= Others(s);
    KeepConserves(s, handed, {});
    assert ToSet(handed) - {""} == ToSet(handed);
  }

  lemma PlainReturnConserves(s: Shell, flow: Flow, handed: Option<string>)
    requires flow.BackAdopting? || flow.AgainAdopting?
    requires BaseInv(s) && ToSet(handed) <= Others(s) && "" !in ToSet(handed) && SignedKnown(s, flow)
    ensures var (s1, flow1) := ReturnFlow(s, flow, handed);
            Conserves(s, ToSet(handed), s1, Owed(s1.sign, flow1)) && FlowShape(s1, flow1)
  {
    hide Conserves, ReturnFlow, BaseInv, Others, FlowShape;
    if s.sign.gen != flow.mine {
      OvertakenReturnConserves(s, flow, handed);
    } else if flow.AgainAdopting? {
      AgainReturnConserves(s, flow, handed);
    } else {
      BackReturnConserves(s, flow, handed);
    }
  }

  lemma EasyReturnConserves(s: Shell, flow: Flow)
    requires BaseInv(s) && FlowInv(s, flow) && (flow.FirstAdopting? || flow.DoorHolding? || flow.QuitReleasing?)
    ensures FlowConserves(s, flow, ReturnFlow(s, flow, HandsBack(s.sign.calls[Awaits(flow).value])))
  {
    var handed := HandsBack(s.sign.calls[Awaits(flow).value]);
    assert ToSet(handed) == Hands(s.sign, Awaits(flow).value) <= Owed(s.sign, flow);
    if flow.QuitReleasing? && handed.Some? {
      SendConserves(s, handed.value, {});
    }
  }

  lemma ReturnConserves(s: Shell, flow: Flow)
    requires BaseInv(s) && FlowInv(s, flow) && Awaits(flow).Some?
    ensures FlowConserves(s, flow, ReturnFlow(s, flow, HandsBack(s.sign.calls[Awaits(flow).value])))
  {
    var handed := HandsBack(s.sign.calls[Awaits(flow).value]);
    assert ToSet(handed) == Hands(s.sign, Awaits(flow).value) <= Owed(s.sign, flow);
    assert "" !in Others(s);
    match flow {
      case FirstAdopting(_) => EasyReturnConserves(s, flow); hide FlowConserves, ReturnFlow;
      case FollowAdopting(_, left) =>
        assert Owed(s.sign, flow) == ToSet(handed);
        hide Conserves, FollowOn;
        FollowOnConserves(s, handed, left);
      case DoorHolding(_, _, _, _) => EasyReturnConserves(s, flow); hide FlowConserves, ReturnFlow;
      case DoorAdopting(_, mine, signed, next) =>
        assert Owed(s.sign, flow) == OwedByThen(next) + ToSet(handed);
        hide Conserves, ReturnFlow;
        DoorReturnConserves(s, mine, signed, next, handed);
      case QuitReleasing(_) => EasyReturnConserves(s, flow); hide FlowConserves, ReturnFlow;
      case BackAdopting(_, _, _) =>
        assert Owed(s.sign, flow) == ToSet(handed);
        hide Conserves, ReturnFlow;
        PlainReturnConserves(s, flow, handed);
      case AgainAdopting(_, _, _) =>
        assert Owed(s.sign, flow) == ToSet(handed);
        hide Conserves, ReturnFlow;
        PlainReturnConserves(s, flow, handed);
      case _ =>
    }
  }

  // ── A list being signed out ──

  lemma SignOutConserves(s: Shell, flow: Flow)
    requires BaseInv(s) && FlowInv(s, flow)
    ensures FlowConserves(s, flow, SignOutFlow(s, flow))
  {
    var (s1, flow1) := SignOutFlow(s, flow);
    match flow {
      case SigningOut(list, next) =>
        if list == [] {
          assert Owed(s.sign, flow) == OwedByThen(next);
          hide Conserves, DoorIsBack;
          DoorIsBackConserves(s, next);
        } else {
          var rest := Owed(s.sign, flow1);
          assert Owed(s.sign, flow) == rest + {list[0]};
          if s.gone || s.watchWithheld {
            KeepConserves(s, Some(list[0]), rest);
            assert ToSet(Some(list[0])) - {""} == {list[0]};
          } else {
            SendConserves(s, list[0], rest);
          }
        }
      case QuitSendingHeld =>
        TakeKeptConserves(s, Nothing, {});
        assert Owed(s1.sign, flow1) == {} + set t | t in s.kept;
      case _ =>
    }
  }

  lemma FailConserves(s: Shell, flow: Flow)
    requires BaseInv(s) && FlowInv(s, flow)
    ensures FlowConserves(s, flow, FailFlow(s, flow))
  {
    if flow.DoorAsking? {
      assert Owed(s.sign, flow) == OwedByThen(flow.next);
      hide Conserves, DoorIsBack;
      DoorIsBackConserves(s, flow.next);
    }
  }

  // ── Every event, every run ──

  /** The session an event hands the shell, if it hands one. */
  function GrantOf(event: ShellEvent): Option<Grant> {
    match event
    case ReadyLine(grant, _, _) => Some(grant)
    case UsesRunning(grant) => Some(grant)
    case Answers(_, grant) => Some(grant)
    case _ => None
  }

  lemma QuitConserves(s: Shell)
    requires BaseInv(s)
    ensures FlowConserves(s, Finished, (s.(sign := Step(s.sign, Release)), QuitReleasing(|s.sign.calls|)))
  {
    var s1 := s.(sign := Step(s.sign, Release));
    MovingHands(s.sign, Release, "");
    hide Step;
    forall c: nat | c < |s1.sign.calls| ensures Hands(s1.sign, c) <= Others(s1) {
      if c < |s.sign.calls| {
        assert Hands(s1.sign, c) == Hands(s.sign, c);
      }
    }
  }

  lemma QuitKeeps(s: Shell)
    requires ShellInv(s)
    ensures ShellInv(ShellStep(s, Quits))
  {
    assert BaseInv(s);
    hide ShellInv, BaseInv, FlowConserves, Step;
    QuitConserves(s);
    BeginKeeps(s, (s.(sign := Step(s.sign, Release)), QuitReleasing(|s.sign.calls|)));
  }

  lemma SignInEventKeeps(s: Shell, event: Event)
    requires ShellInv(s) && !event.Adopt? && !event.HoldForShell? && !event.Release?
    ensures ShellInv(s.(sign := Step(s.sign, event)))
  {
    var s1 := s.(sign := Step(s.sign, event));
    AsideHands(s.sign, event);
    hide Step;
    forall i | 0 <= i < |s1.flows| ensures FlowInv(s1, s1.flows[i]) && Owed(s1.sign, s1.flows[i]) == Owed(s.sign, s.flows[i]) {
      OtherFlowKeeps(s, s1, s.flows[i]);
    }
    forall t | t in s1.received ensures Placed(s1, t) {
      assert Placed(s, t);
    }
  }

  lemma TakesKeep(s: Shell, grant: Grant, follows: bool)
    requires ShellInv(s) && Fresh(s, grant) && (s.localPort.Some? ==> follows)
    ensures ShellInv(Begin(TakeGateway(Receive(s, grant).(watchWithheld := false), grant, follows)))
  {
    TakeGatewayConserves(s, grant, follows);
    BeginKeeps(s, TakeGateway(Receive(s, grant).(watchWithheld := false), grant, follows));
  }

  lemma StaleLineKeeps(s: Shell, grant: Grant)
    requires ShellInv(s) && Fresh(s, grant)
    ensures ShellInv(KeepAnswer(Receive(s, grant), grant))
  {
    var s1 := KeepAnswer(Receive(s, grant), grant);
    LateAnswerConserves(s, grant, Nothing);
    forall i | 0 <= i < |s1.flows| ensures FlowInv(s1, s1.flows[i]) {
      OtherFlowKeeps(s, s1, s.flows[i]);
    }
    forall t | t in s1.received ensures Placed(s1, t) {
      if t in s.received {
        assert Placed(s, t);
        if i :| 0 <= i < |s.flows| && t in Owed(s.sign, s.flows[i]) {
          assert t in Owed(s1.sign, s1.flows[i]);
        }
      }
    }
  }

  lemma FlowStartKeeps(s: Shell, result: (Shell, Flow))
    requires ShellInv(s) && FlowShape(s, result.1)
    requires (result.0 == s && Owed(s.sign, result.1) == {}) || result == TakeKept(s, Nothing)
    ensures ShellInv(Begin(result))
  {
    if result == TakeKept(s, Nothing) {
      TakeKeptConserves(s, Nothing, {});
      assert Owed(result.0.sign, result.1) == {} + set t | t in s.kept;
    }
    BeginKeeps(s, result);
  }

  /** The events that begin a call of the shell's, or concern none. */
  lemma BeginningKeeps(s: Shell, event: ShellEvent)
    requires ShellInv(s) && (GrantOf(event).Some? ==> Fresh(s, GrantOf(event).value))
    requires !event.Answers? && !event.Fails? && !event.Returns? && !event.SignsOutNext?
    ensures ShellInv(ShellStep(s, event))
  {
    hide ShellInv, FlowConserves, Step, TakeGateway;
    match event {
      case ReadyLine(grant, stale, settled) =>
        if stale { StaleLineKeeps(s, grant); } else { TakesKeep(s, grant, settled || s.localPort.Some?); }
      case UsesRunning(grant) => TakesKeep(s, grant, s.localPort.Some?);
      case MovedAsks => FlowStartKeeps(s, (s, MovedSigningIn(s.sign.gen)));
      case BackAsks => if s.localPort.Some? { FlowStartKeeps(s, (s, BackSigningIn(s.sign.gen))); }
      case AgainAsks => if s.localPort.Some? { FlowStartKeeps(s, (s, AgainSigningIn(s.sign.gen, s.localPort))); }
      case ResumeAsksDoor => if s.localPort.Some? { FlowStartKeeps(s, (s, DoorAsking(s.sign.gen, Nothing))); }
      case SignsOutKept => FlowStartKeeps(s, TakeKept(s, Nothing));
      case Quits => QuitKeeps(s);
      case Watch(_, _) => WatchKeeps(s, event);
      case SignInEvent(e) => if !e.Adopt? && !e.HoldForShell? && !e.Release? { SignInEventKeeps(s, e); }
    }
  }

  /** The events of one call in progress. */
  lemma FlowKeeps(s: Shell, event: ShellEvent)
    requires ShellInv(s) && (GrantOf(event).Some? ==> Fresh(s, GrantOf(event).value))
    requires event.Answers? || event.Fails? || event.Returns? || event.SignsOutNext?
    ensures ShellInv(ShellStep(s, event))
  {
    assert BaseInv(s) && (forall i | 0 <= i < |s.flows| :: FlowInv(s, s.flows[i]));
    hide ShellInv, FlowConserves, Step, Put, AnswerFlow, ReturnFlow, SignOutFlow, FailFlow;
    if event.flow < |s.flows| {
      var i, flow := event.flow, s.flows[event.flow];
      match event {
        case Answers(_, grant) => AnswerConserves(s, flow, grant); PutKeeps(s, i, AnswerFlow(s, flow, grant));
        case Fails(_) => FailConserves(s, flow); PutKeeps(s, i, FailFlow(s, flow));
        case Returns(_) =>
          if IsBack(s, i) {
            ReturnConserves(s, flow);
            PutKeeps(s, i, ReturnFlow(s, flow, HandsBack(s.sign.calls[Awaits(flow).value])));
          }
        case SignsOutNext(_) => SignOutConserves(s, flow); PutKeeps(s, i, SignOutFlow(s, flow));
      }
    }
  }

  lemma ShellStepKeeps(s: Shell, event: ShellEvent)
    requires ShellInv(s) && (GrantOf(event).Some? ==> Fresh(s, GrantOf(event).value))
    ensures ShellInv(ShellStep(s, event))
  {
    hide ShellInv, ShellStep;
    if event.Answers? || event.Fails? || event.Returns? || event.SignsOutNext? {
      FlowKeeps(s, event);
    } else {
      BeginningKeeps(s, event);
    }
  }

  lemma WatchKeeps(s: Shell, event: ShellEvent)
    requires ShellInv(s) && event.Watch?
    ensures ShellInv(ShellStep(s, event))
  {
    var s1 := ShellStep(s, event);
    forall t | t in s1.received ensures Placed(s1, t) {
      assert Placed(s, t);
    }
  }

  /** No event hands the shell a session it was handed before: every gateway mints its own. */
  ghost predicate AllFresh(events: seq<ShellEvent>, n: nat)
    requires n <= |events|
  {
    forall k | 0 <= k < n :: GrantOf(events[k]).Some? ==> Fresh(ShellAt(events, k), GrantOf(events[k]).value)
  }

  lemma {:induction false} RunKeepsShell(events: seq<ShellEvent>, n: nat)
    requires n <= |events| && AllFresh(events, n)
    ensures ShellInv(ShellAt(events, n))
  {
    hide ShellStep;
    if n > 0 {
      RunKeepsShell(events, n - 1);
      ShellStepKeeps(ShellAt(events, n - 1), events[n - 1]);
    }
  }

  /** No session is ever lost. At every step of every run, each session the shell was handed is the
      one held, or kept to be signed out, or in the locals of a call that still has to keep it, or was
      sent for sign-out, or had its sign-out asked while no gateway could be asked; and the session
      held is none of the others: it is never on the list, never signed out, never a call's to keep. */
  lemma NoSessionIsLost(events: seq<ShellEvent>, n: nat)
    requires n <= |events| && AllFresh(events, n)
    ensures var s := ShellAt(events, n);
            && (forall token | token in s.received :: Placed(s, token))
            && HeldToken(s.sign) !in Listed(s)
            && (HeldToken(s.sign) != "" ==> forall i | 0 <= i < |s.flows| :: HeldToken(s.sign) !in Owed(s.sign, s.flows[i]))
  {
    RunKeepsShell(events, n);
    var s := ShellAt(events, n);
    forall i | 0 <= i < |s.flows| && HeldToken(s.sign) != "" ensures HeldToken(s.sign) !in Owed(s.sign, s.flows[i]) {
      assert FlowInv(s, s.flows[i]);
    }
  }

  /** When a sign-out is asked for nothing: exactly at the quit's own release while no gateway can be
      asked, or for a kept session while no gateway was ever taken. A restart, a loss, a move or a
      Sign In Again drops none. */
  lemma DropsExactlyWhen(s: Shell, event: ShellEvent, token: string)
    requires token !in s.dropped
    ensures token in ShellStep(s, event).dropped <==>
              || (&& event.Returns? && IsBack(s, event.flow) && s.flows[event.flow].QuitReleasing?
                  && HandsBack(s.sign.calls[s.flows[event.flow].call]) == Some(token)
                  && (s.localPort.None? || s.gone || s.watchWithheld))
              || (&& event.SignsOutNext? && event.flow < |s.flows| && s.flows[event.flow].SigningOut?
                  && s.flows[event.flow].list != [] && s.flows[event.flow].list[0] == token
                  && s.localPort.None? && !s.gone && !s.watchWithheld)
  {
    hide Step;
    match event
    case Answers(i, grant) => if i < |s.flows| { AnswerDropsNone(s, s.flows[i], grant); hide AnswerFlow; }
    case _ => hide AnswerFlow;
  }

  lemma AnswerDropsNone(s: Shell, flow: Flow, grant: Grant)
    ensures AnswerFlow(s, flow, grant).0.dropped == s.dropped
  {
    hide Step;
  }

  /** As here: a ready line of a child the app no longer runs is kept, and the quit, with no gateway ever
      taken, has nowhere to sign its session out. */
  lemma SessionDropped()
    ensures var grant := Grant(Ready(8001, "token", false), None, None);
            var events := [ReadyLine(grant, true, false), Quits, Returns(0), SignsOutNext(0), SignsOutNext(0)];
            AllFresh(events, 5) && "token" in ShellAt(events, 5).dropped
  {
    var grant := Grant(Ready(8001, "token", false), None, None);
    var events := [ReadyLine(grant, true, false), Quits, Returns(0), SignsOutNext(0), SignsOutNext(0)];
    assert ShellAt(events, 0) == InitShell;
    var s1 := InitShell.(received := {"token"}, kept := ["token"]);
    assert ShellAt(events, 1) == s1;
    var s2 := s1.(sign := Init.(gen := 1, calls := [Returned(Released(None))]), flows := [QuitReleasing(0)]);
    assert ShellAt(events, 2) == s2;
    var s3 := s2.(flows := [QuitSendingHeld]);
    assert ShellAt(events, 3) == s3;
    var s4 := s3.(kept := [], flows := [SigningOut(["token"], Nothing)]);
    assert ShellAt(events, 4) == s4;
    assert ShellAt(events, 5) == ShellStep(s4, SignsOutNext(0));
  }
}
