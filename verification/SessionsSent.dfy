/**
 * Which sessions are signed out, and when: over every interleaving of the main process's calls, together
 * with the record they drive.
 */
module SessionsSent {
  import opened Options
  import opened WindowTraffic
  import opened SignIn
  import opened Sessions
  import K = SessionsKept
  import J = SignInJar
  import L = SignInLoss

  // ── A run of the shell is a run of the record ──

  /** One of the record's events that does nothing. */
  const NOTHING_DONE: Event := RetireOrigin(None)

  function TakingEvent(grant: Grant): Event {
    if grant.ready.windowDoor && grant.pair.None? then HoldForShell(Some(grant.ready), grant.start) else Adopting(grant)
  }

  function Adopting(grant: Grant): Event {
    Adopt(Some(grant.ready), grant.pair, grant.start)
  }

  function LeavingEvent(s: Shell, left: Option<int>): Event {
    if left.Some? && left != s.localPort then RetireOrigin(Some(LocalOrigin(left.value))) else NOTHING_DONE
  }

  function ThenEvent(s: Shell, next: Then): Event {
    match next
    case Nothing => NOTHING_DONE
    case TheFollow(_, left) => LeavingEvent(s, left)
  }

  /** What the answer *grant* has the flow do with the record: a sign-in at the generation it was asked at. */
  function AnswerEvent(s: Shell, flow: Flow, grant: Grant): Event {
    match flow
    case DoorAsking(gen, next) => if s.sign.gen != gen then ThenEvent(s, next) else Adopting(grant)
    case MovedSigningIn(gen) => if s.sign.gen != gen then NOTHING_DONE else TakingEvent(grant)
    case BackSigningIn(gen) => if s.sign.gen != gen then NOTHING_DONE else Adopting(grant)
    case AgainSigningIn(gen, at) => if s.sign.gen != gen || s.localPort != at then NOTHING_DONE else Adopting(grant)
    case _ => NOTHING_DONE
  }

  function ReturnEvent(s: Shell, flow: Flow): Event {
    match flow
    case FollowAdopting(_, left) => LeavingEvent(s, left)
    case DoorAdopting(_, mine, _, next) => if s.sign.gen != mine then ThenEvent(s, next) else NOTHING_DONE
    case _ => NOTHING_DONE
  }

  /** The one event of the record that *event* of the shell is. */
  function RecordEvent(s: Shell, event: ShellEvent): Event {
    match event
    case ReadyLine(grant, stale, _) => if stale then NOTHING_DONE else TakingEvent(grant)
    case UsesRunning(grant) => TakingEvent(grant)
    case Answers(i, grant) => if i < |s.flows| then AnswerEvent(s, s.flows[i], grant) else NOTHING_DONE
    case Fails(i) => if i < |s.flows| && s.flows[i].DoorAsking? then ThenEvent(s, s.flows[i].next) else NOTHING_DONE
    case Returns(i) => if IsBack(s, i) then ReturnEvent(s, s.flows[i]) else NOTHING_DONE
    case SignsOutNext(i) =>
      if i < |s.flows| && s.flows[i].SigningOut? && s.flows[i].list == [] then ThenEvent(s, s.flows[i].next) else NOTHING_DONE
    case Quits => Release
    case SignInEvent(e) => if e.Adopt? || e.HoldForShell? || e.Release? then NOTHING_DONE else e
    case _ => NOTHING_DONE
  }

  lemma NothingIsDone(w: World)
    ensures Step(w, NOTHING_DONE) == w
  {
  }

  lemma ThenIsOfTheRecord(s: Shell, next: Then)
    ensures DoorIsBack(s, next).0.sign == Step(s.sign, ThenEvent(s, next))
  {
    NothingIsDone(s.sign);
    hide Step;
  }

  lemma AnswerIsOfTheRecord(s: Shell, flow: Flow, grant: Grant)
    ensures AnswerFlow(s, flow, grant).0.sign == Step(s.sign, AnswerEvent(s, flow, grant))
  {
    NothingIsDone(s.sign);
    hide Step, NOTHING_DONE, DoorIsBack;
    if flow.DoorAsking? {
      ThenIsOfTheRecord(KeepAnswer(Receive(s, grant), grant), flow.next);
    }
  }

  lemma ReturnIsOfTheRecord(s: Shell, flow: Flow, handed: Option<string>)
    ensures ReturnFlow(s, flow, handed).0.sign == Step(s.sign, ReturnEvent(s, flow))
  {
    NothingIsDone(s.sign);
    hide Step, NOTHING_DONE, DoorIsBack;
    if flow.DoorAdopting? {
      ThenIsOfTheRecord(KeepBoth(s, handed, flow.signed), flow.next);
    }
  }

  /** Every step of the shell is one step of the record: which sign-in, hold, release or retirement it makes. */
  lemma StepIsOfTheRecord(s: Shell, event: ShellEvent)
    ensures ShellStep(s, event).sign == Step(s.sign, RecordEvent(s, event))
  {
    NothingIsDone(s.sign);
    hide Step, NOTHING_DONE, AnswerFlow, ReturnFlow, AnswerEvent, ReturnEvent, DoorIsBack, ThenEvent;
    match event
    case Answers(i, grant) => if i < |s.flows| { AnswerIsOfTheRecord(s, s.flows[i], grant); }
    case Returns(i) =>
      if IsBack(s, i) {
        ReturnIsOfTheRecord(s, s.flows[i], HandsBack(s.sign.calls[Awaits(s.flows[i]).value]));
      }
    case Fails(i) => if i < |s.flows| && s.flows[i].DoorAsking? { ThenIsOfTheRecord(s, s.flows[i].next); }
    case SignsOutNext(i) => if i < |s.flows| && s.flows[i].SigningOut? { ThenIsOfTheRecord(s, s.flows[i].next); }
    case _ =>
  }

  function RecordEvents(events: seq<ShellEvent>): (records: seq<Event>)
    ensures |records| == |events|
  {
    seq(|events|, k requires 0 <= k < |events| => RecordEvent(ShellAt(events, k), events[k]))
  }

  /** So a run of the shell is a run of the record, and all that is proved of every run of the record holds
      of it: the jar, the losses, the retired origins. */
  lemma {:induction false} ShellRunsTheRecord(events: seq<ShellEvent>, n: nat)
    requires n <= |events|
    ensures ShellAt(events, n).sign == At(RecordEvents(events), n)
  {
    hide ShellStep, Step, RecordEvent;
    if n > 0 {
      ShellRunsTheRecord(events, n - 1);
      StepIsOfTheRecord(ShellAt(events, n - 1), events[n - 1]);
      assert RecordEvents(events)[n - 1] == RecordEvent(ShellAt(events, n - 1), events[n - 1]);
    }
  }

  // ── The jar and the sign-outs ──

  /** What the gateways and the store promise: every session has its token, a pair comes only with the
      window's door, and no operation fails. */
  predicate Kindly(event: ShellEvent) {
    && (K.GrantOf(event).Some? ==> GoodGrant(K.GrantOf(event).value))
    && (event.SignInEvent? && event.event.Lands? ==> event.event.ok)
  }

  predicate GoodGrant(grant: Grant) {
    grant.ready.token != "" && (grant.pair.Some? ==> grant.ready.windowDoor)
  }

  lemma KindIsWelcome(s: Shell, event: ShellEvent)
    requires Kindly(event)
    ensures J.Welcome(RecordEvent(s, event))
  {
    hide IsBack;
  }

  /** No window is ever left with a session that is to be signed out, over every run: a cookie in the jar
      that no outstanding operation is on is the held session's, which is neither on the list, nor sent for
      sign-out, nor owed one by any call. */
  lemma NoCookieOfASignedOutSession(events: seq<ShellEvent>, n: nat, port: int)
    requires n <= |events| && K.AllFresh(events, n) && forall k | 0 <= k < |events| :: Kindly(events[k])
    ensures var s := ShellAt(events, n);
            && |s.sign.landed| <= |s.sign.ops|
            && (port in JarNow(s.sign) && J.NoneOwed(s.sign, port) ==>
                  var token := JarNow(s.sign)[port];
                  && token == HeldToken(s.sign) && token !in s.kept && token !in s.sent && token !in s.dropped
                  && forall i | 0 <= i < |s.flows| :: token !in K.Owed(s.sign, s.flows[i]))
  {
    var records := RecordEvents(events);
    hide RecordEvent, Kindly, J.Welcome;
    forall k | 0 <= k < |records| ensures J.Welcome(records[k]) {
      KindIsWelcome(ShellAt(events, k), events[k]);
    }
    hide ShellStep, Step, JarNow, J.NoneOwed, K.Owed, At;
    ShellRunsTheRecord(events, n);
    J.JarIsSafe(records, n, port);
    K.NoSessionIsLost(events, n);
  }

  // ── Which sessions are sent ──

  /** The gateway in use can be asked: one was taken, and it is neither gone nor withheld. */
  predicate CanBeAsked(s: Shell) {
    s.localPort.Some? && !s.gone && !s.watchWithheld
  }

  /** The session *event* asks to be signed out. */
  function AskedOut(s: Shell, event: ShellEvent): Option<string> {
    match event
    case SignsOutNext(i) =>
      if i < |s.flows| && s.flows[i].SigningOut? && s.flows[i].list != [] then Some(s.flows[i].list[0]) else None
    case Returns(i) =>
      if IsBack(s, i) && s.flows[i].QuitReleasing? then HandsBack(s.sign.calls[s.flows[i].call]) else None
    case _ => None
  }

  /** A session's sign-out request goes out exactly when it is the next of a list gone through, or the one
      the quit releases, while the gateway in use can be asked. */
  lemma SentExactlyWhen(s: Shell, event: ShellEvent, token: string)
    ensures token in ShellStep(s, event).sent <==> token in s.sent || (AskedOut(s, event) == Some(token) && CanBeAsked(s))
  {
    hide Step, HandsBack;
    match event
    case Answers(i, grant) => if i < |s.flows| { AnswerSendsNone(s, s.flows[i], grant); hide AnswerFlow; }
    case Returns(i) => if IsBack(s, i) { ReturnSends(s, s.flows[i], Handing(s, i)); hide ReturnFlow, CanBeAsked; }
    case _ => hide AnswerFlow, ReturnFlow;
  }

  lemma AnswerSendsNone(s: Shell, flow: Flow, grant: Grant)
    ensures AnswerFlow(s, flow, grant).0.sent == s.sent
  {
    hide Step;
  }

  lemma ReturnSends(s: Shell, flow: Flow, handed: Option<string>)
    ensures ReturnFlow(s, flow, handed).0.sent ==
              s.sent + if flow.QuitReleasing? && handed.Some? && CanBeAsked(s) then {handed.value} else {}
  {
    hide Step;
  }

  // ── A list gone through ──

  lemma OtherEventsLeaveFlow(s: Shell, event: ShellEvent, i: nat)
    requires i < |s.flows|
    requires !((event.Answers? || event.Fails? || event.Returns? || event.SignsOutNext?) && event.flow == i)
    ensures var next := ShellStep(s, event); |s.flows| <= |next.flows| && next.flows[i] == s.flows[i]
  {
    hide Step, AnswerFlow, ReturnFlow, SignOutFlow, FailFlow;
    match event
    case Answers(k, grant) => if k < |s.flows| { FlowsStay(s, k, event); }
    case Fails(k) => if k < |s.flows| { FlowsStay(s, k, event); }
    case Returns(k) => if IsBack(s, k) { FlowsStay(s, k, event); }
    case SignsOutNext(k) => if k < |s.flows| { FlowsStay(s, k, event); }
    case _ =>
  }

  lemma FlowsStay(s: Shell, k: nat, event: ShellEvent)
    requires k < |s.flows|
    ensures event.Answers? ==> AnswerFlow(s, s.flows[k], event.grant).0.flows == s.flows
    ensures FailFlow(s, s.flows[k]).0.flows == s.flows && SignOutFlow(s, s.flows[k]).0.flows == s.flows
    ensures IsBack(s, k) ==> ReturnFlow(s, s.flows[k], HandsBack(s.sign.calls[Awaits(s.flows[k]).value])).0.flows == s.flows
  {
    hide Step;
  }

  lemma SigningOutGoesOn(s: Shell, event: ShellEvent, i: nat)
    requires i < |s.flows| && s.flows[i].SigningOut?
    ensures var next := ShellStep(s, event);
            && i < |next.flows|
            && (event != SignsOutNext(i) ==> next.flows[i] == s.flows[i])
            && (event == SignsOutNext(i) && s.flows[i].list != [] ==>
                  next.flows[i] == SigningOut(s.flows[i].list[1..], s.flows[i].next) && next.flows == s.flows[i := next.flows[i]])
  {
    if event == SignsOutNext(i) {
      if s.flows[i].list == [] {
        FlowsStay(s, i, event);
        hide DoorIsBack, Step;
      }
    } else if event.Returns? && event.flow == i {
      assert !IsBack(s, i);
    } else if !((event.Answers? || event.Fails?) && event.flow == i) {
      hide ShellStep;
      OtherEventsLeaveFlow(s, event, i);
    }
  }

  lemma {:induction false} SentStays(events: seq<ShellEvent>, m: nat, n: nat, token: string)
    requires m <= n <= |events| && token in ShellAt(events, m).sent
    ensures token in ShellAt(events, n).sent
  {
    hide ShellStep;
    if m < n {
      SentStays(events, m, n - 1, token);
      SentExactlyWhen(ShellAt(events, n - 1), events[n - 1], token);
    }
  }

  /** A list being gone through at event *m*, over every run in which the gateway can be asked whenever its
      turn comes: at every later moment what is left of it is its end, all before that sent for sign-out;
      and once it is gone through, all of it was. */
  lemma {:induction false} ListIsSignedOut(events: seq<ShellEvent>, m: nat, n: nat, i: nat) returns (done: nat)
    requires m <= n <= |events| && i < |ShellAt(events, m).flows| && ShellAt(events, m).flows[i].SigningOut?
    requires forall k | m <= k < n && events[k] == SignsOutNext(i) :: CanBeAsked(ShellAt(events, k))
    ensures var list, s := ShellAt(events, m).flows[i].list, ShellAt(events, n);
            && done <= |list| && i < |s.flows|
            && (forall token | token in list[..done] :: token in s.sent)
            && (s.flows[i] == SigningOut(list[done..], ShellAt(events, m).flows[i].next) || done == |list|)
            && (done == NextsOf(events, m, n, i) || done == |list| <= NextsOf(events, m, n, i))
  {
    hide ShellStep, CanBeAsked;
    var flow := ShellAt(events, m).flows[i];
    if m == n {
      done := 0;
    } else {
      done := ListIsSignedOut(events, m, n - 1, i);
      var before := ShellAt(events, n - 1);
      FlowCountsStay(before, events[n - 1]);
      forall token | token in flow.list[..done] ensures token in ShellAt(events, n).sent {
        SentExactlyWhen(before, events[n - 1], token);
      }
      if before.flows[i] == SigningOut(flow.list[done..], flow.next) {
        SigningOutGoesOn(before, events[n - 1], i);
        if events[n - 1] == SignsOutNext(i) && done < |flow.list| {
          SentExactlyWhen(before, events[n - 1], flow.list[done]);
          assert flow.list[..done + 1] == flow.list[..done] + [flow.list[done]];
          done := done + 1;
        }
      }
    }
  }

  /** How many turns of call *i* came from event *m* to *n*. */
  function NextsOf(events: seq<ShellEvent>, m: nat, n: nat, i: nat): nat
    requires m <= n <= |events|
  {
    if m == n then 0 else NextsOf(events, m, n - 1, i) + if events[n - 1] == SignsOutNext(i) then 1 else 0
  }

  lemma FlowCountsStay(s: Shell, event: ShellEvent)
    ensures |s.flows| <= |ShellStep(s, event).flows|
  {
    if (event.Answers? || event.Fails? || event.Returns? || event.SignsOutNext?) && event.flow < |s.flows| {
      FlowsStay(s, event.flow, event);
    }
    hide Step, AnswerFlow, ReturnFlow, SignOutFlow, FailFlow;
  }

  // ── The list of kept sessions ──

  predicate Unmoved(s: Shell, flow: Flow) {
    (flow.DoorAdopting? || flow.BackAdopting? || flow.AgainAdopting?) && s.sign.gen == flow.mine
  }

  /** A sign-in's answer that came too late to be adopted. */
  predicate ComesLate(s: Shell, flow: Flow) {
    match flow
    case DoorAsking(gen, _) => s.sign.gen != gen
    case MovedSigningIn(gen) => s.sign.gen != gen
    case BackSigningIn(gen) => s.sign.gen != gen
    case AgainSigningIn(gen, at) => s.sign.gen != gen || s.localPort != at
    case _ => false
  }

  function Handing(s: Shell, i: nat): Option<string>
    requires IsBack(s, i)
  {
    HandsBack(s.sign.calls[Awaits(s.flows[i]).value])
  }

  /** The kept list is taken, to be gone through: by a follow, by a sign-in that saw it through, by the
      quit, or on its own. */
  predicate TakesList(s: Shell, event: ShellEvent) {
    match event
    case SignsOutKept => true
    case Answers(i, _) => i < |s.flows| && ComesLate(s, s.flows[i]) && s.flows[i].DoorAsking? && s.flows[i].next.TheFollow?
    case Fails(i) => i < |s.flows| && s.flows[i].DoorAsking? && s.flows[i].next.TheFollow?
    case Returns(i) =>
      IsBack(s, i) &&
      (match s.flows[i]
       case FollowAdopting(_, _) => true
       case DoorAdopting(_, _, _, next) => Unmoved(s, s.flows[i]) || next.TheFollow?
       case AgainAdopting(_, _, _) => Unmoved(s, s.flows[i])
       case _ => false)
    case SignsOutNext(i) =>
      i < |s.flows| &&
      (s.flows[i].QuitSendingHeld? || (s.flows[i].SigningOut? && s.flows[i].list == [] && s.flows[i].next.TheFollow?))
    case _ => false
  }

  /** A session is put on the list: a stale line's, one answered too late, one a sign-in replaced or, once
      overtaken, signed in, and one whose turn came while the gateway could not be asked. */
  predicate Keeps(s: Shell, event: ShellEvent, token: string) {
    match event
    case ReadyLine(grant, stale, _) => stale && grant.ready.token == token
    case Answers(i, grant) => i < |s.flows| && ComesLate(s, s.flows[i]) && grant.ready.token == token
    case Returns(i) =>
      IsBack(s, i) && (s.flows[i].DoorAdopting? || s.flows[i].BackAdopting? || s.flows[i].AgainAdopting?) &&
      (Handing(s, i) == Some(token) || (!Unmoved(s, s.flows[i]) && s.flows[i].signed == token && token != HeldToken(s.sign)))
    case SignsOutNext(i) =>
      && i < |s.flows| && s.flows[i].SigningOut? && s.flows[i].list != [] && s.flows[i].list[0] == token
      && (s.gone || s.watchWithheld)
    case _ => false
  }

  lemma KeptBoth(s: Shell, handed: Option<string>, signed: string, token: string)
    ensures token in KeepBoth(s, handed, signed).kept <==>
              token in s.kept || (token != "" && (handed == Some(token) || (signed == token && token != HeldToken(s.sign))))
  {
  }

  lemma KeptOne(s: Shell, handed: Option<string>, token: string)
    ensures token in Sessions.Keep(s.kept, handed) <==> token in s.kept || (token != "" && handed == Some(token))
  {
  }

  lemma KeptAfterReturn(s: Shell, i: nat, token: string)
    requires IsBack(s, i)
    ensures token in ReturnFlow(s, s.flows[i], Handing(s, i)).0.kept <==>
              !TakesList(s, Returns(i)) && (token in s.kept || (token != "" && Keeps(s, Returns(i), token)))
  {
    var handed := Handing(s, i);
    KeptOne(s, handed, token);
    if s.flows[i].DoorAdopting? || s.flows[i].BackAdopting? || s.flows[i].AgainAdopting? {
      KeptBoth(s, handed, s.flows[i].signed, token);
    }
    hide Step, HandsBack, KeepBoth, Sessions.Keep;
  }

  lemma KeptAfterAnswer(s: Shell, i: nat, grant: Grant, token: string)
    requires i < |s.flows|
    ensures token in AnswerFlow(s, s.flows[i], grant).0.kept <==>
              !TakesList(s, Answers(i, grant)) && (token in s.kept || (token != "" && Keeps(s, Answers(i, grant), token)))
  {
    hide Step;
  }

  /** What is on the list after any event: all of it is taken, or it stays, with what the event keeps. */
  lemma KeptExactlyWhen(s: Shell, event: ShellEvent, token: string)
    ensures token in ShellStep(s, event).kept <==>
              !TakesList(s, event) && (token in s.kept || (token != "" && Keeps(s, event, token)))
  {
    hide Step, HandsBack;
    match event
    case Answers(i, grant) =>
      if i < |s.flows| {
        KeptAfterAnswer(s, i, grant, token);
        hide AnswerFlow, TakesList, Keeps;
      }
    case Returns(i) =>
      if IsBack(s, i) {
        KeptAfterReturn(s, i, token);
        hide ReturnFlow, TakesList, Keeps;
      }
    case _ =>
  }

  /** The list as it was, at least, is *flow*'s to sign out, and nothing is kept. */
  predicate HasTaken(kept: seq<string>, next: Shell, flow: Flow) {
    next.kept == [] && flow.SigningOut? && forall token | token in kept :: token in flow.list
  }

  lemma DoorTakes(s: Shell, next: Then)
    requires next.TheFollow?
    ensures var (s1, flow1) := DoorIsBack(s, next); HasTaken(s.kept, s1, flow1)
  {
    hide Step;
  }

  lemma ReturnTakes(s: Shell, i: nat)
    requires IsBack(s, i) && TakesList(s, Returns(i))
    ensures var (s1, flow1) := ReturnFlow(s, s.flows[i], Handing(s, i)); HasTaken(s.kept, s1, flow1)
  {
    var handed := Handing(s, i);
    if s.flows[i].DoorAdopting? && s.flows[i].next.TheFollow? {
      DoorTakes(KeepBoth(s, handed, s.flows[i].signed), s.flows[i].next);
      assert forall token | token in s.kept :: token in KeepBoth(s, handed, s.flows[i].signed).kept;
    }
    hide Step, HandsBack, DoorIsBack;
  }

  lemma FlowTakes(s: Shell, event: ShellEvent)
    requires TakesList(s, event) && !event.Returns? && !event.SignsOutKept?
    ensures event.Answers? ==>
              var (s1, flow1) := AnswerFlow(s, s.flows[event.flow], event.grant); HasTaken(s.kept, s1, flow1)
    ensures event.Fails? ==> var (s1, flow1) := FailFlow(s, s.flows[event.flow]); HasTaken(s.kept, s1, flow1)
    ensures event.SignsOutNext? ==> var (s1, flow1) := SignOutFlow(s, s.flows[event.flow]); HasTaken(s.kept, s1, flow1)
  {
    var flow := s.flows[event.flow];
    if event.Answers? {
      DoorTakes(KeepAnswer(Receive(s, event.grant), event.grant), flow.next);
    } else if !flow.QuitSendingHeld? {
      DoorTakes(s, flow.next);
    }
    hide Step, DoorIsBack;
  }

  /** A list taken is gone through: the call that takes it has every session of it to sign out. */
  lemma ListIsTakenToBeSignedOut(s: Shell, event: ShellEvent)
    requires TakesList(s, event)
    ensures var next := ShellStep(s, event);
            var i := if event.SignsOutKept? then |s.flows| else event.flow;
            i < |next.flows| && HasTaken(s.kept, next, next.flows[i])
  {
    if event.Returns? {
      FlowsStay(s, event.flow, event);
      ReturnTakes(s, event.flow);
    } else if !event.SignsOutKept? {
      FlowsStay(s, event.flow, event);
      FlowTakes(s, event);
    }
    hide Step, HandsBack, AnswerFlow, ReturnFlow, SignOutFlow, FailFlow, TakesList;
  }

  /** So a list that is gone through while the gateway can be asked leaves none of its sessions on the list:
      one of them that is kept at the end was kept already when it was taken, or put there since by another
      event than its turn. */
  lemma {:induction false} GoneThroughIsNotKept(events: seq<ShellEvent>, m: nat, n: nat, i: nat, token: string)
    requires m <= n <= |events| && i < |ShellAt(events, m).flows|
    requires forall k | m <= k < n && events[k] == SignsOutNext(i) :: CanBeAsked(ShellAt(events, k))
    requires token in ShellAt(events, n).kept
    ensures token in ShellAt(events, m).kept ||
            exists k :: m <= k < n && events[k] != SignsOutNext(i) && Keeps(ShellAt(events, k), events[k], token)
  {
    hide ShellStep;
    if m < n {
      var before := ShellAt(events, n - 1);
      KeptExactlyWhen(before, events[n - 1], token);
      assert events[n - 1] == SignsOutNext(i) && CanBeAsked(before) ==> !Keeps(before, events[n - 1], token);
      hide Keeps, CanBeAsked, TakesList;
      if token in before.kept {
        GoneThroughIsNotKept(events, m, n - 1, i, token);
      }
    }
  }

  predicate EachOnce(list: seq<string>) {
    forall i, j | 0 <= i < j < |list| :: list[i] != list[j]
  }

  lemma KeepsOnce(kept: seq<string>, token: Option<string>)
    requires EachOnce(kept)
    ensures EachOnce(Sessions.Keep(kept, token))
  {
  }

  lemma StepKeepsOnce(s: Shell, event: ShellEvent)
    requires EachOnce(s.kept)
    ensures EachOnce(ShellStep(s, event).kept)
  {
    hide Step, HandsBack, EachOnce, Sessions.Keep;
    KeepsOnce(s.kept, None);
    match event
    case ReadyLine(grant, _, _) => KeepsOnce(s.kept, Some(grant.ready.token));
    case Answers(_, grant) => KeepsOnce(s.kept, Some(grant.ready.token)); KeepNothing();
    case Fails(_) => KeepNothing();
    case Returns(i) =>
      if IsBack(s, i) {
        var handed := Handing(s, i);
        KeepNothing();
        KeepsOnce(s.kept, handed);
        if s.flows[i].DoorAdopting? || s.flows[i].BackAdopting? || s.flows[i].AgainAdopting? {
          KeepsOnce(Sessions.Keep(s.kept, handed), Some(s.flows[i].signed));
        }
      }
    case SignsOutNext(i) =>
      KeepNothing();
      if i < |s.flows| && s.flows[i].SigningOut? && s.flows[i].list != [] {
        KeepsOnce(s.kept, Some(s.flows[i].list[0]));
      }
    case _ => KeepNothing();
  }

  lemma KeepNothing()
    ensures EachOnce([])
  {
  }

  /** The list holds no session twice, over every run. */
  lemma {:induction false} ListHoldsEachOnce(events: seq<ShellEvent>, n: nat)
    requires n <= |events|
    ensures EachOnce(ShellAt(events, n).kept)
  {
    hide ShellStep;
    if n > 0 {
      ListHoldsEachOnce(events, n - 1);
      StepKeepsOnce(ShellAt(events, n - 1), events[n - 1]);
    }
  }

  // ── The gateway in use ──

  /** The gateway *event* takes as the one in use: a ready line's, a found one's, one that moved. */
  function GatewayTaken(s: Shell, event: ShellEvent): Option<Grant> {
    match event
    case ReadyLine(grant, stale, _) => if stale then None else Some(grant)
    case UsesRunning(grant) => Some(grant)
    case Answers(i, grant) =>
      if i < |s.flows| && s.flows[i].MovedSigningIn? && !ComesLate(s, s.flows[i]) then Some(grant) else None
    case _ => None
  }

  /** A Sign In Again whose answer is adopted: the watch follows the start it proved. */
  predicate SignsInAgain(s: Shell, event: ShellEvent) {
    event.Answers? && event.flow < |s.flows| && s.flows[event.flow].AgainSigningIn? && !ComesLate(s, s.flows[event.flow])
  }

  /** The gateway in use is the one last taken, there and not withheld when it is taken, and otherwise as the
      watch says. */
  lemma GatewayIsTheOneTaken(s: Shell, event: ShellEvent)
    ensures var next, taken := ShellStep(s, event), GatewayTaken(s, event);
            && next.localPort == (if taken.Some? then Some(taken.value.ready.port) else s.localPort)
            && next.gone == (if taken.Some? then false else if event.Watch? then event.gone else s.gone)
            && next.watchWithheld == (if taken.Some? || SignsInAgain(s, event) then false
                                      else if event.Watch? then event.withheld else s.watchWithheld)
  {
    hide Step, HandsBack;
    if event.Answers? && event.flow < |s.flows| {
      GatewayAfterAnswer(s, s.flows[event.flow], event.grant);
      hide AnswerFlow;
    }
  }

  lemma GatewayAfterAnswer(s: Shell, flow: Flow, grant: Grant)
    ensures var next := AnswerFlow(s, flow, grant).0;
            var taken := flow.MovedSigningIn? && !ComesLate(s, flow);
            && next.localPort == (if taken then Some(grant.ready.port) else s.localPort)
            && next.gone == (if taken then false else s.gone)
            && next.watchWithheld == (if taken || (flow.AgainSigningIn? && !ComesLate(s, flow)) then false else s.watchWithheld)
  {
    hide Step;
  }

  // ── Every call ends ──

  /** How far from its end a call is, before the sessions it has to go through. */
  function Stage(flow: Flow): nat {
    match flow
    case MovedSigningIn(_) => 7
    case DoorHolding(_, _, _, _) => 6
    case DoorAsking(_, _) => 5
    case DoorAdopting(_, _, _, _) => 4
    case FollowAdopting(_, _) => 3
    case FirstAdopting(_) => 1
    case AgainSigningIn(_, _) => 3
    case AgainAdopting(_, _, _) => 2
    case BackSigningIn(_) => 2
    case BackAdopting(_, _, _) => 1
    case QuitReleasing(_) => 4
    case QuitSendingHeld => 3
    case SigningOut(_, next) => if next.TheFollow? then 2 else 1
    case Finished => 0
  }

  function Turns(flow: Flow): nat {
    if flow.SigningOut? then |flow.list| else 0
  }

  /** The event is the next thing *flow* waits for. */
  predicate IsItsTurn(s: Shell, event: ShellEvent, i: nat)
    requires i < |s.flows|
  {
    var flow := s.flows[i];
    var asks := flow.DoorAsking? || flow.MovedSigningIn? || flow.BackSigningIn? || flow.AgainSigningIn?;
    match event
    case Answers(k, _) => k == i && asks
    case Fails(k) => k == i && asks
    case Returns(k) => k == i && IsBack(s, i)
    case SignsOutNext(k) => k == i && (flow.SigningOut? || flow.QuitSendingHeld?)
    case _ => false
  }

  /** Every call goes on towards its end: what it waits for brings it nearer, every other event leaves it as
      it is, and one that is not over waits for something. */
  lemma CallsGoOn(s: Shell, event: ShellEvent, i: nat)
    requires i < |s.flows|
    ensures var next := ShellStep(s, event);
            && i < |next.flows|
            && (if IsItsTurn(s, event, i)
                then Nearer(next.flows[i], s.flows[i])
                else next.flows[i] == s.flows[i])
    ensures s.flows[i] == Finished <==> Stage(s.flows[i]) == 0
  {
    hide Step, HandsBack;
    if (event.Answers? || event.Fails? || event.Returns? || event.SignsOutNext?) && event.flow == i {
      FlowsStay(s, i, event);
      FlowGoesOn(s, event, i);
      hide AnswerFlow, ReturnFlow, SignOutFlow, FailFlow;
    } else {
      OtherEventsLeaveFlow(s, event, i);
      hide ShellStep;
    }
  }

  predicate Nearer(flow1: Flow, flow: Flow) {
    Stage(flow1) < Stage(flow) || (Stage(flow1) == Stage(flow) && Turns(flow1) < Turns(flow))
  }

  lemma FlowGoesOn(s: Shell, event: ShellEvent, i: nat)
    requires i < |s.flows|
    ensures event.Answers? && event.flow == i ==>
              var flow1 := AnswerFlow(s, s.flows[i], event.grant).1;
              if IsItsTurn(s, event, i) then Nearer(flow1, s.flows[i]) else flow1 == s.flows[i]
    ensures event == Fails(i) ==>
              var flow1 := FailFlow(s, s.flows[i]).1;
              if IsItsTurn(s, event, i) then Nearer(flow1, s.flows[i]) else flow1 == s.flows[i]
    ensures event == Returns(i) && IsBack(s, i) ==> Nearer(ReturnFlow(s, s.flows[i], Handing(s, i)).1, s.flows[i])
    ensures event == SignsOutNext(i) ==>
              var flow1 := SignOutFlow(s, s.flows[i]).1;
              if IsItsTurn(s, event, i) then Nearer(flow1, s.flows[i]) else flow1 == s.flows[i]
  {
    hide Step, HandsBack;
    match event
    case Answers(_, grant) => AnswerComesNearer(s, s.flows[i], grant); hide AnswerFlow, ReturnFlow, SignOutFlow, FailFlow, Nearer;
    case Returns(_) =>
      if IsBack(s, i) { ReturnComesNearer(s, s.flows[i], Handing(s, i)); }
      hide AnswerFlow, ReturnFlow, SignOutFlow, FailFlow, Nearer;
    case _ => hide AnswerFlow, ReturnFlow;
  }

  lemma AnswerComesNearer(s: Shell, flow: Flow, grant: Grant)
    ensures var flow1 := AnswerFlow(s, flow, grant).1;
            if flow.DoorAsking? || flow.MovedSigningIn? || flow.BackSigningIn? || flow.AgainSigningIn?
            then Nearer(flow1, flow) else flow1 == flow
  {
    hide Step;
  }

  lemma ReturnComesNearer(s: Shell, flow: Flow, handed: Option<string>)
    requires Awaits(flow).Some?
    ensures Nearer(ReturnFlow(s, flow, handed).1, flow)
  {
    hide Step;
  }

  // ── What a call remembers ──

  /** The generation an ask, its answer, or the sign-in it made is judged against. */
  function AskedAt(flow: Flow): Option<nat> {
    match flow
    case DoorHolding(_, gen, _, _) => Some(gen)
    case DoorAsking(gen, _) => Some(gen)
    case MovedSigningIn(gen) => Some(gen)
    case BackSigningIn(gen) => Some(gen)
    case AgainSigningIn(gen, _) => Some(gen)
    case DoorAdopting(_, mine, _, _) => Some(mine)
    case BackAdopting(_, mine, _) => Some(mine)
    case AgainAdopting(_, mine, _) => Some(mine)
    case _ => None
  }

  /** The address a follow leaves. */
  function LeftBy(flow: Flow): Option<Option<int>> {
    match flow
    case FollowAdopting(_, left) => Some(left)
    case DoorHolding(_, _, follows, left) => if follows then Some(left) else None
    case DoorAsking(_, next) => LeftByThen(next)
    case DoorAdopting(_, _, _, next) => LeftByThen(next)
    case SigningOut(_, next) => LeftByThen(next)
    case _ => None
  }

  function LeftByThen(next: Then): Option<Option<int>> {
    match next
    case Nothing => None
    case TheFollow(_, left) => Some(left)
  }

  /** A call that may ask for a sign-in begins: a gateway taken whose door is asked, or an ask of its own; or
      one adopts what it asked for. */
  predicate BeginsAsk(s: Shell, event: ShellEvent) {
    || GatewayTaken(s, event).Some? || event.MovedAsks? || event.BackAsks? || event.AgainAsks? || event.ResumeAsksDoor?
    || (event.Answers? && RecordEvent(s, event).Adopt?)
  }

  /** What *flow1* remembers it had from *flow*, or took from the shell as it is now. */
  predicate Remembers(s: Shell, next: Shell, flow: Flow, flow1: Flow, asks: bool, takes: bool) {
    && (AskedAt(flow1).Some? ==> AskedAt(flow1) == AskedAt(flow) || (asks && AskedAt(flow1) == Some(next.sign.gen)))
    && (LeftBy(flow1).Some? ==> LeftBy(flow1) == LeftBy(flow) || (takes && LeftBy(flow1) == Some(s.localPort)))
  }

  lemma AnswerRemembers(s: Shell, flow: Flow, grant: Grant)
    ensures var (next, flow1) := AnswerFlow(s, flow, grant);
            var takes := flow.MovedSigningIn? && !ComesLate(s, flow);
            Remembers(s, next, flow, flow1, takes || AnswerEvent(s, flow, grant).Adopt?, takes)
  {
    hide Step;
  }

  lemma ReturnRemembers(s: Shell, flow: Flow, handed: Option<string>)
    ensures var (next, flow1) := ReturnFlow(s, flow, handed); Remembers(s, next, flow, flow1, false, false)
  {
    hide Step;
  }

  lemma OthersRemember(s: Shell, flow: Flow)
    ensures var (next, flow1) := FailFlow(s, flow); Remembers(s, next, flow, flow1, false, false)
    ensures var (next, flow1) := SignOutFlow(s, flow); Remembers(s, next, flow, flow1, false, false)
  {
    hide Step;
  }

  lemma TakenRemembers(s: Shell, grant: Grant, follows: bool)
    ensures var (next, flow1) := TakeGateway(s, grant, follows); Remembers(s, next, Finished, flow1, true, true)
  {
    hide Step;
  }

  lemma BegunRemembers(s: Shell, event: ShellEvent)
    requires !event.Answers? && !event.Returns? && !event.Fails? && !event.SignsOutNext?
    ensures var next := ShellStep(s, event);
            |s.flows| < |next.flows| ==>
              |next.flows| == |s.flows| + 1 && Remembers(s, next, Finished, next.flows[|s.flows|], BeginsAsk(s, event), GatewayTaken(s, event).Some?)
  {
    hide Step;
    if event.ReadyLine? && !event.stale {
      TakenRemembers(Receive(s, event.grant).(watchWithheld := false), event.grant, event.settled || s.localPort.Some?);
      TakenFlows(Receive(s, event.grant).(watchWithheld := false), event.grant, event.settled || s.localPort.Some?);
      hide TakeGateway;
    } else if event.UsesRunning? {
      TakenRemembers(Receive(s, event.grant).(watchWithheld := false), event.grant, s.localPort.Some?);
      TakenFlows(Receive(s, event.grant).(watchWithheld := false), event.grant, s.localPort.Some?);
      hide TakeGateway;
    } else {
      hide TakeGateway;
    }
  }

  lemma TakenFlows(s: Shell, grant: Grant, follows: bool)
    ensures TakeGateway(s, grant, follows).0.flows == s.flows
  {
    hide Step;
  }

  lemma StepRemembers(s: Shell, event: ShellEvent, i: nat)
    requires i < |ShellStep(s, event).flows|
    ensures var next := ShellStep(s, event);
            Remembers(s, next, if i < |s.flows| then s.flows[i] else Finished, next.flows[i], BeginsAsk(s, event), GatewayTaken(s, event).Some?)
            || (i < |s.flows| && next.flows[i] == s.flows[i])
  {
    hide Step, HandsBack, AskedAt, LeftBy, AnswerFlow, ReturnFlow, SignOutFlow, FailFlow, ComesLate;
    if (event.Answers? || event.Fails? || event.Returns? || event.SignsOutNext?) && event.flow < |s.flows| {
      FlowsStay(s, event.flow, event);
      if event.Answers? {
        AnswerRemembers(s, s.flows[event.flow], event.grant);
        assert GatewayTaken(s, event).Some? <==> s.flows[event.flow].MovedSigningIn? && !ComesLate(s, s.flows[event.flow]);
      } else if event.Returns? && IsBack(s, event.flow) {
        ReturnRemembers(s, s.flows[event.flow], Handing(s, event.flow));
      } else {
        OthersRemember(s, s.flows[event.flow]);
      }
    } else if !(event.Answers? || event.Fails? || event.Returns? || event.SignsOutNext?) {
      BegunRemembers(s, event);
      if i < |s.flows| {
        OtherEventsLeaveFlow(s, event, i);
      }
      hide ShellStep;
    }
  }

  /** The generation a call asks at is the sign-in's at the step that began its ask, over every run. */
  lemma {:induction false} AskBeganAt(events: seq<ShellEvent>, n: nat, i: nat) returns (m: nat)
    requires n <= |events| && i < |ShellAt(events, n).flows| && AskedAt(ShellAt(events, n).flows[i]).Some?
    ensures m < n && BeginsAsk(ShellAt(events, m), events[m])
    ensures AskedAt(ShellAt(events, n).flows[i]) == Some(ShellAt(events, m + 1).sign.gen)
  {
    hide ShellStep, BeginsAsk;
    var before := ShellAt(events, n - 1);
    StepRemembers(before, events[n - 1], i);
    if i < |before.flows| && AskedAt(before.flows[i]) == AskedAt(ShellAt(events, n).flows[i]) {
      m := AskBeganAt(events, n - 1, i);
    } else {
      m := n - 1;
    }
  }

  /** And the address a follow leaves is that of the gateway in use when it took the next one. */
  lemma {:induction false} FollowLeavesWhereItWas(events: seq<ShellEvent>, n: nat, i: nat) returns (m: nat)
    requires n <= |events| && i < |ShellAt(events, n).flows| && LeftBy(ShellAt(events, n).flows[i]).Some?
    ensures m < n && GatewayTaken(ShellAt(events, m), events[m]).Some?
    ensures LeftBy(ShellAt(events, n).flows[i]) == Some(ShellAt(events, m).localPort)
  {
    hide ShellStep, GatewayTaken;
    var before := ShellAt(events, n - 1);
    StepRemembers(before, events[n - 1], i);
    if i < |before.flows| && LeftBy(before.flows[i]) == LeftBy(ShellAt(events, n).flows[i]) {
      m := FollowLeavesWhereItWas(events, n - 1, i);
    } else {
      m := n - 1;
    }
  }

  /** No answer is adopted once overtaken: over every run, the sign-in an answer makes was asked for by a call
      that began at a step *m* after which no sign-in, hold, loss or release came, of any call's. */
  lemma NoOvertakenAnswerIsAdopted(events: seq<ShellEvent>, n: nat) returns (m: nat)
    requires n < |events| && events[n].Answers?
    requires var made := RecordEvents(events)[n]; made.Adopt? || made.HoldForShell?
    ensures m < n && BeginsAsk(ShellAt(events, m), events[m])
    ensures forall k | m < k < n :: !L.Moves(RecordEvents(events)[k])
  {
    hide ShellStep, Step, BeginsAsk, AskedAt, RecordEvent, L.Moves;
    assert RecordEvents(events)[n] == RecordEvent(ShellAt(events, n), events[n]);
    AdoptsAtItsGeneration(ShellAt(events, n), events[n]);
    m := AskBeganAt(events, n, events[n].flow);
    ShellRunsTheRecord(events, m + 1);
    ShellRunsTheRecord(events, n);
    hide ShellAt, RecordEvents;
    L.GenMoves(RecordEvents(events), m + 1, n);
  }

  /** And a sign-in goes on to sign the list out, over every run, exactly when nothing overtook it: with no
      sign-in, hold, loss or release of any call's since the step that made it. */
  lemma SeesTheListThroughExactlyWhen(events: seq<ShellEvent>, n: nat) returns (m: nat)
    requires n < |events| && events[n].Returns? && IsBack(ShellAt(events, n), events[n].flow)
    requires var flow := ShellAt(events, n).flows[events[n].flow]; flow.AgainAdopting? || (flow.DoorAdopting? && flow.next.Nothing?)
    ensures m < n && BeginsAsk(ShellAt(events, m), events[m])
    ensures TakesList(ShellAt(events, n), events[n]) <==> forall k | m < k < n :: !L.Moves(RecordEvents(events)[k])
  {
    hide ShellStep, Step, BeginsAsk, L.Moves, HandsBack;
    m := AskBeganAt(events, n, events[n].flow);
    ShellRunsTheRecord(events, m + 1);
    ShellRunsTheRecord(events, n);
    hide ShellAt, RecordEvents;
    L.GenMoves(RecordEvents(events), m + 1, n);
    if forall k | m < k < n :: !L.Moves(RecordEvents(events)[k]) {
      L.GenUnmoved(RecordEvents(events), m + 1, n);
    }
  }

  lemma AdoptsAtItsGeneration(s: Shell, event: ShellEvent)
    requires event.Answers? && (RecordEvent(s, event).Adopt? || RecordEvent(s, event).HoldForShell?)
    ensures event.flow < |s.flows| && AskedAt(s.flows[event.flow]) == Some(s.sign.gen)
  {
  }

  /** A call that adopts an answer awaits that very sign-in, and remembers the session it signed in. */
  lemma AdoptedIsAwaited(s: Shell, flow: Flow, grant: Grant)
    requires AnswerEvent(s, flow, grant).Adopt? && !flow.MovedSigningIn?
    ensures var (next, flow1) := AnswerFlow(s, flow, grant);
            && Awaits(flow1) == Some(|s.sign.calls|) && |next.sign.calls| == |s.sign.calls| + 1
            && (flow1.DoorAdopting? || flow1.BackAdopting? || flow1.AgainAdopting?) && flow1.signed == grant.ready.token
            && (flow.DoorAsking? ==> flow1.DoorAdopting? && flow1.next == flow.next)
  {
    hide DoAdopt;
  }

  /** An ask begins whenever it is made, a gateway once taken for all but a move's. */
  lemma AsksBegin(s: Shell, event: ShellEvent)
    requires event.MovedAsks? || ((event.BackAsks? || event.AgainAsks? || event.ResumeAsksDoor?) && s.localPort.Some?)
    ensures var next := ShellStep(s, event);
            && |next.flows| == |s.flows| + 1 && next.(flows := s.flows) == s
            && AskedAt(next.flows[|s.flows|]) == Some(s.sign.gen)
            && (event.MovedAsks? ==> next.flows[|s.flows|].MovedSigningIn?)
            && (event.BackAsks? ==> next.flows[|s.flows|].BackSigningIn?)
            && (event.AgainAsks? ==> next.flows[|s.flows|] == AgainSigningIn(s.sign.gen, s.localPort))
            && (event.ResumeAsksDoor? ==> next.flows[|s.flows|] == DoorAsking(s.sign.gen, Nothing))
  {
  }
}
