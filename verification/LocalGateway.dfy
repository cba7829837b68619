/**
 * The sign-in protocol as the shell's main process runs it (desktop/main.js): the module's variables and
 * the sign-in record, updated in place, each method being one step of a call between two awaits. What it
 * does is `Sessions.ShellStep`, over which `SessionsKept` proves what every run keeps.
 */
module LocalGateway {
  import opened Options
  import opened WindowTraffic
  import opened LocalSignIn
  import opened Sessions
  import opened SessionsKept

  class Main {
    const sign: Record
    var localPort: Option<int>
    var keptSessions: seq<string>
    var gatewayGone: bool
    var watchWithheld: bool
    /** The calls in progress, each with the locals it is suspended with. */
    var flows: seq<Flow>
    /** The history: what was handed to the shell, signed out, and asked of no gateway. */
    var received: set<string>
    var sent: set<string>
    var dropped: set<string>

    ghost function Now(): Shell
      reads this, sign
    {
      Shell(sign.State(), localPort, keptSessions, gatewayGone, watchWithheld, flows, received, sent, dropped)
    }

    constructor ()
      ensures fresh(sign) && Now() == InitShell
    {
      sign := new Record();
      localPort, keptSessions, gatewayGone, watchWithheld, flows := None, [], false, false, [];
      received, sent, dropped := {}, {}, {};
    }

    // ── The pieces ──

    method KeepToSignOut(token: Option<string>)
      modifies this`keptSessions
      ensures keptSessions == Sessions.Keep(old(keptSessions), token)
    {
      if token.Some? && token.value != "" && token.value !in keptSessions {
        keptSessions := keptSessions + [token.value];
      }
    }

    method SignOutLocalSession(token: string)
      modifies this`sent, this`dropped
      ensures Now() == SendSignOut(old(Now()), token)
    {
      if localPort.None? || gatewayGone || watchWithheld {
        dropped := dropped + {token};
      } else {
        sent := sent + {token};
      }
    }

    method Take(grant: Grant)
      modifies this`received
      ensures Now() == Receive(old(Now()), grant)
    {
      if grant.ready.token != "" {
        received := received + {grant.ready.token};
      }
    }

    /** `localSignIn.adopt`, up to its first await. */
    method Adopt(grant: Grant) returns (call: nat)
      modifies sign
      ensures call == |old(sign.calls)| && Now() == SignAdopt(old(Now()), grant)
    {
      call := |sign.calls|;
      sign.AdoptCall(Some(grant.ready), grant.pair, grant.start);
    }

    method AdoptLocalGateway(grant: Grant, follows: bool) returns (flow: Flow)
      modifies this`localPort, this`gatewayGone, sign
      ensures (Now(), flow) == TakeGateway(old(Now()), grant, follows)
    {
      var left := localPort;
      localPort := Some(grant.ready.port);
      gatewayGone := false;
      if grant.ready.windowDoor && grant.pair.None? {
        var holding := |sign.calls|;
        sign.HoldForShellCall(Some(grant.ready), grant.start);
        return DoorHolding(holding, sign.gen, follows, left);
      }
      var call := Adopt(grant);
      return if follows then FollowAdopting(call, left) else FirstAdopting(call);
    }

    method SignOutKept(next: Then) returns (flow: Flow)
      modifies this`keptSessions
      ensures (Now(), flow) == TakeKept(old(Now()), next)
    {
      flow := SigningOut(keptSessions, next);
      keptSessions := [];
    }

    /** The rest of `followRestartedGateway`, from after the gateway was taken. */
    method FollowRest(earlier: Option<string>, left: Option<int>) returns (flow: Flow)
      modifies this`keptSessions, sign
      ensures (Now(), flow) == FollowOn(old(Now()), earlier, left)
    {
      if left.Some? && left != localPort {
        sign.RetireOriginCall(Some(LocalOrigin(left.value)));
      }
      KeepToSignOut(earlier);
      flow := SignOutKept(Nothing);
    }

    method DoorBack(next: Then) returns (flow: Flow)
      modifies this`keptSessions, sign
      ensures (Now(), flow) == DoorIsBack(old(Now()), next)
    {
      match next
      case Nothing => flow := Finished;
      case TheFollow(earlier, left) => flow := FollowRest(earlier, left);
    }

    /** After an adopt whose generation moved: what it replaced, and what it signed in unless held. */
    method KeepWhatMoved(handed: Option<string>, signed: string)
      modifies this`keptSessions
      ensures Now() == KeepBoth(old(Now()), handed, signed)
    {
      KeepToSignOut(handed);
      var token := if sign.held.Some? then sign.held.value.token else "";
      if token != signed {
        KeepToSignOut(Some(signed));
      }
    }

    method Goes(i: nat, flow: Flow)
      requires i < |flows|
      modifies this`flows
      ensures flows == old(flows)[i := flow]
    {
      flows := flows[i := flow];
    }

    // ── The calls' first steps ──

    method TakeReadyLineCall(grant: Grant, stale: bool, settled: bool)
      modifies this, sign
      ensures Now() == ShellStep(old(Now()), ReadyLine(grant, stale, settled))
    {
      Take(grant);
      if stale {
        KeepToSignOut(Some(grant.ready.token));
        return;
      }
      watchWithheld := false;
      var follows := settled || localPort.Some?;
      var flow := AdoptLocalGateway(grant, follows);
      flows := flows + [flow];
    }

    method UseRunningGateway(grant: Grant)
      modifies this, sign
      ensures Now() == ShellStep(old(Now()), UsesRunning(grant))
    {
      Take(grant);
      watchWithheld := false;
      var flow := AdoptLocalGateway(grant, localPort.Some?);
      flows := flows + [flow];
    }

    method FollowMovedGateway()
      modifies this`flows
      ensures Now() == ShellStep(old(Now()), MovedAsks)
    {
      flows := flows + [MovedSigningIn(sign.gen)];
    }

    method TakeBackAdoptedGateway()
      requires localPort.Some?
      modifies this`flows
      ensures Now() == ShellStep(old(Now()), BackAsks)
    {
      flows := flows + [BackSigningIn(sign.gen)];
    }

    method SignInAgain()
      requires localPort.Some?
      modifies this`flows
      ensures Now() == ShellStep(old(Now()), AgainAsks)
    {
      flows := flows + [AgainSigningIn(sign.gen, localPort)];
    }

    method ResumeAskingTheDoor()
      requires localPort.Some?
      modifies this`flows
      ensures Now() == ShellStep(old(Now()), ResumeAsksDoor)
    {
      flows := flows + [DoorAsking(sign.gen, Nothing)];
    }

    method SignOutKeptCall()
      modifies this
      ensures Now() == ShellStep(old(Now()), SignsOutKept)
    {
      var flow := SignOutKept(Nothing);
      flows := flows + [flow];
    }

    /** The quit lets the windows' session go, and signs it out once it is out of the jar. */
    method QuitCall()
      modifies this`flows, sign
      ensures Now() == ShellStep(old(Now()), Quits)
    {
      var call := |sign.calls|;
      sign.ReleaseCall();
      flows := flows + [QuitReleasing(call)];
    }

    method WatchSays(gone: bool, withheld: bool)
      modifies this`gatewayGone, this`watchWithheld
      ensures Now() == ShellStep(old(Now()), Watch(gone, withheld))
    {
      gatewayGone, watchWithheld := gone, withheld;
    }

    // ── The calls' later steps ──

    /** The window's door answered with a session. */
    method DoorAnswered(i: nat, grant: Grant)
      requires i < |flows| && flows[i].DoorAsking?
      modifies this, sign
      ensures Now() == ShellStep(old(Now()), Answers(i, grant))
    {
      var DoorAsking(gen, next) := flows[i];
      Take(grant);
      var flow;
      if sign.gen != gen {
        KeepToSignOut(Some(grant.ready.token));
        flow := DoorBack(next);
      } else {
        var call := Adopt(grant);
        flow := DoorAdopting(call, sign.gen, grant.ready.token, next);
      }
      Goes(i, flow);
    }

    method MovedAnswered(i: nat, grant: Grant)
      requires i < |flows| && flows[i].MovedSigningIn?
      modifies this, sign
      ensures Now() == ShellStep(old(Now()), Answers(i, grant))
    {
      Take(grant);
      var flow := Finished;
      if sign.gen != flows[i].gen {
        KeepToSignOut(Some(grant.ready.token));
      } else {
        watchWithheld := false;
        flow := AdoptLocalGateway(grant, localPort.Some?);
      }
      Goes(i, flow);
    }

    method BackAnswered(i: nat, grant: Grant)
      requires i < |flows| && flows[i].BackSigningIn?
      modifies this, sign
      ensures Now() == ShellStep(old(Now()), Answers(i, grant))
    {
      Take(grant);
      var flow := Finished;
      if sign.gen != flows[i].gen {
        KeepToSignOut(Some(grant.ready.token));
      } else {
        var call := Adopt(grant);
        flow := BackAdopting(call, sign.gen, grant.ready.token);
      }
      Goes(i, flow);
    }

    method AgainAnswered(i: nat, grant: Grant)
      requires i < |flows| && flows[i].AgainSigningIn?
      modifies this, sign
      ensures Now() == ShellStep(old(Now()), Answers(i, grant))
    {
      var AgainSigningIn(gen, from) := flows[i];
      Take(grant);
      var flow := Finished;
      if sign.gen != gen || localPort != from {
        KeepToSignOut(Some(grant.ready.token));
      } else {
        var call := Adopt(grant);
        watchWithheld := false;
        flow := AgainAdopting(call, sign.gen, grant.ready.token);
      }
      Goes(i, flow);
    }

    /** No session came of what the call asked for. */
    method NotSignedIn(i: nat)
      requires i < |flows|
      requires flows[i].DoorAsking? || flows[i].MovedSigningIn? || flows[i].BackSigningIn? || flows[i].AgainSigningIn?
      modifies this, sign
      ensures Now() == ShellStep(old(Now()), Fails(i))
    {
      var flow := Finished;
      if flows[i].DoorAsking? {
        flow := DoorBack(flows[i].next);
      }
      Goes(i, flow);
    }

    /** The record's call that call *i* awaited is back. */
    method RecordReturned(i: nat)
      requires IsBack(Now(), i)
      modifies this, sign
      ensures Now() == ShellStep(old(Now()), Returns(i))
    {
      var handed := HandsBack(sign.calls[Awaits(flows[i]).value]);
      var flow := Finished;
      match flows[i] {
        case FirstAdopting(_) =>
        case FollowAdopting(_, left) =>
          flow := FollowRest(handed, left);
        case DoorHolding(_, gen, follows, left) =>
          flow := DoorAsking(gen, if follows then TheFollow(handed, left) else Nothing);
        case DoorAdopting(_, mine, signed, next) =>
          if sign.gen != mine {
            KeepWhatMoved(handed, signed);
            flow := DoorBack(next);
          } else {
            KeepToSignOut(handed);
            flow := SignOutKept(next);
          }
        case BackAdopting(_, mine, signed) =>
          if sign.gen != mine {
            KeepWhatMoved(handed, signed);
          } else {
            KeepToSignOut(handed);
          }
        case AgainAdopting(_, mine, signed) =>
          if sign.gen != mine {
            KeepWhatMoved(handed, signed);
          } else {
            KeepToSignOut(handed);
            flow := SignOutKept(Nothing);
          }
        case QuitReleasing(_) =>
          if handed.Some? {
            SignOutLocalSession(handed.value);
          }
          flow := QuitSendingHeld;
        case DoorAsking(_, _) =>
        case SigningOut(_, _) =>
        case MovedSigningIn(_) =>
        case BackSigningIn(_) =>
        case AgainSigningIn(_, _) =>
        case QuitSendingHeld =>
        case Finished =>
      }
      Goes(i, flow);
    }

    /** The next session of the list being signed out. */
    method SignOutNext(i: nat)
      requires i < |flows| && flows[i].SigningOut?
      modifies this, sign
      ensures Now() == ShellStep(old(Now()), SignsOutNext(i))
    {
      var SigningOut(list, next) := flows[i];
      var flow;
      if list == [] {
        flow := DoorBack(next);
      } else {
        if gatewayGone || watchWithheld {
          KeepToSignOut(Some(list[0]));
        } else {
          SignOutLocalSession(list[0]);
        }
        flow := SigningOut(list[1..], next);
      }
      Goes(i, flow);
    }

    /** The quit's own session is signed out: the kept ones follow. */
    method QuitGoesOn(i: nat)
      requires i < |flows| && flows[i].QuitSendingHeld?
      modifies this, sign
      ensures Now() == ShellStep(old(Now()), SignsOutNext(i))
    {
      var flow := SignOutKept(Nothing);
      Goes(i, flow);
    }

    /** The next step of call *i*, once its sign-in is answered with a session. */
    method Answered(i: nat, grant: Grant)
      requires i < |flows|
      modifies this, sign
      ensures Now() == ShellStep(old(Now()), Answers(i, grant))
    {
      hide AnswerFlow;
      if flows[i].DoorAsking? {
        DoorAnswered(i, grant);
      } else if flows[i].MovedSigningIn? {
        MovedAnswered(i, grant);
      } else if flows[i].BackSigningIn? {
        BackAnswered(i, grant);
      } else if flows[i].AgainSigningIn? {
        AgainAnswered(i, grant);
      } else {
        NoneAnswered(Now(), flows[i], grant);
        Goes(i, flows[i]);
      }
    }

    /** And otherwise: no session came, the record's call is back, the next is signed out. */
    method GoesOn(event: ShellEvent)
      requires event.Fails? || event.Returns? || event.SignsOutNext?
      modifies this, sign
      ensures Now() == ShellStep(old(Now()), event)
    {
      var i := event.flow;
      if i >= |flows| {
        return;
      }
      match event {
        case Fails(_) =>
          if flows[i].DoorAsking? || flows[i].MovedSigningIn? || flows[i].BackSigningIn? || flows[i].AgainSigningIn? {
            NotSignedIn(i);
          } else {
            Goes(i, flows[i]);
          }
        case Returns(_) =>
          if Awaits(flows[i]).Some? && Awaits(flows[i]).value < |sign.calls| && sign.calls[Awaits(flows[i]).value].Returned? {
            RecordReturned(i);
          }
        case SignsOutNext(_) =>
          if flows[i].SigningOut? {
            SignOutNext(i);
          } else if flows[i].QuitSendingHeld? {
            QuitGoesOn(i);
          } else {
            Goes(i, flows[i]);
          }
      }
    }

    /** Whatever comes next. */
    method TakeEvent(event: ShellEvent)
      modifies this, sign
      ensures Now() == ShellStep(old(Now()), event)
    {
      hide AnswerFlow, ReturnFlow, SignOutFlow, FailFlow, TakeGateway;
      match event {
        case ReadyLine(grant, stale, settled) => TakeReadyLineCall(grant, stale, settled);
        case UsesRunning(grant) => UseRunningGateway(grant);
        case MovedAsks => FollowMovedGateway();
        case BackAsks => if localPort.Some? { TakeBackAdoptedGateway(); }
        case AgainAsks => if localPort.Some? { SignInAgain(); }
        case ResumeAsksDoor => if localPort.Some? { ResumeAskingTheDoor(); }
        case SignsOutKept => SignOutKeptCall();
        case Answers(i, grant) => if i < |flows| { Answered(i, grant); }
        case Fails(_) => GoesOn(event);
        case Returns(_) => GoesOn(event);
        case SignsOutNext(_) => GoesOn(event);
        case Quits => QuitCall();
        case Watch(gone, withheld) => WatchSays(gone, withheld);
        case SignInEvent(e) => if !e.Adopt? && !e.HoldForShell? && !e.Release? { sign.Take(e); }
      }
    }
  }

  lemma NoneAnswered(s: Shell, flow: Flow, grant: Grant)
    requires !flow.DoorAsking? && !flow.MovedSigningIn? && !flow.BackSigningIn? && !flow.AgainSigningIn?
    ensures AnswerFlow(s, flow, grant) == (s, flow)
  {
  }

  /** A main process that went through any events at all, every gateway minting its own sessions, has every
      session it was handed in its place, and signs the one it holds out nowhere. */
  method RunThrough(events: seq<ShellEvent>) returns (main: Main)
    requires AllFresh(events, |events|)
    ensures fresh(main) && fresh(main.sign) && main.Now() == ShellAt(events, |events|)
    ensures forall token | token in main.received :: Placed(main.Now(), token)
    ensures HeldToken(main.sign.State()) !in main.keptSessions
    ensures HeldToken(main.sign.State()) !in main.sent && HeldToken(main.sign.State()) !in main.dropped
  {
    main := new Main();
    for i := 0 to |events|
      invariant fresh(main) && fresh(main.sign) && main.Now() == ShellAt(events, i)
    {
      main.TakeEvent(events[i]);
    }
    hide ShellStep, Placed;
    NoSessionIsLost(events, |events|);
  }
}
