/**
 * A loss wins over a pending write, and nothing ever reaches a retired origin: over every
 * interleaving, failing store operations and tokenless ready lines included.
 */
module SignInLoss {
  import opened Options
  import opened WindowTraffic
  import opened SignIn

  /** The events that move the generation: a sign-in, a shell hold, a loss, a release. */
  predicate Moves(event: Event) {
    event.Adopt? || event.HoldForShell? || event.Withhold? || event.Release?
  }

  lemma StepGen(w: World, event: Event)
    ensures Step(w, event).gen == w.gen + (if Moves(event) then 1 else 0)
  {
  }

  /** The generation never goes back, and moves with every sign-in, hold, loss and release. */
  lemma {:induction false} GenMoves(events: seq<Event>, m: nat, n: nat)
    requires m <= n <= |events|
    ensures At(events, m).gen <= At(events, n).gen
    ensures At(events, m).gen == At(events, n).gen ==> forall k | m <= k < n :: !Moves(events[k])
  {
    hide Step;
    if m < n {
      GenMoves(events, m, n - 1);
      StepGen(At(events, n - 1), events[n - 1]);
    }
  }

  lemma {:induction false} GenUnmoved(events: seq<Event>, m: nat, n: nat)
    requires m <= n <= |events| && forall k | m <= k < n :: !Moves(events[k])
    ensures At(events, m).gen == At(events, n).gen
  {
    hide Step, Moves;
    if m < n {
      GenUnmoved(events, m, n - 1);
      StepGen(At(events, n - 1), events[n - 1]);
    }
  }

  /** What a suspended sign-in says of the event that made it, *gen* being the generation after it. */
  predicate BegunBy(event: Event, gen: nat, call: Call) {
    match call
    case AdoptLeaving(mine, _, _, _) => event.Adopt? && mine == gen
    case AdoptWriting(mine, _, _, _) => event.Adopt? && mine == gen
    case LiftWriting(expected, _, _) => event.Lift? && event.expected == expected == gen
    case _ => true
  }

  lemma StepCalls(w: World, event: Event)
    ensures var next := Step(w, event);
            && |w.calls| <= |next.calls| <= |w.calls| + 1
            && (forall i | 0 <= i < |w.calls| && event != Resume(i) :: next.calls[i] == w.calls[i])
  {
    hide DoAdopt, DoHoldForShell, DoWithhold, DoLift, DoEnd, DoRelease, GoOn;
  }

  lemma ResumeCalls(w: World, i: nat)
    requires i < |w.calls|
    ensures var next := Step(w, Resume(i));
            && |next.calls| == |w.calls|
            && next.calls[i] == if CanGoOn(w, i) then GoOn(w, w.calls[i], w.landed[w.calls[i].op]).1 else w.calls[i]
  {
  }

  lemma AdoptBegun(w: World, ready: Option<Ready>, pair: Option<string>, start: Option<Start>)
    ensures var next := DoAdopt(w, ready, pair, start);
            BegunBy(Adopt(ready, pair, start), next.gen, next.calls[|w.calls|])
  {
  }

  lemma LiftBegun(w: World, expected: nat, unretire: bool, start: Option<Start>)
    ensures var next := DoLift(w, expected, unretire, start);
            BegunBy(Lift(expected, unretire, start), next.gen, next.calls[|w.calls|])
  {
  }

  lemma OtherBegun(w: World, event: Event)
    requires !event.Adopt? && !event.Lift? && |w.calls| < |Step(w, event).calls|
    ensures var next := Step(w, event); BegunBy(event, next.gen, next.calls[|w.calls|])
  {
  }

  lemma NewCallBegun(w: World, event: Event)
    requires |w.calls| < |Step(w, event).calls|
    ensures var next := Step(w, event); BegunBy(event, next.gen, next.calls[|w.calls|])
  {
    hide DoAdopt, DoLift, DoHoldForShell, DoWithhold, DoEnd, DoRelease, GoOn;
    match event
    case Adopt(ready, pair, start) => AdoptBegun(w, ready, pair, start);
    case Lift(expected, unretire, start) => LiftBegun(w, expected, unretire, start);
    case _ => OtherBegun(w, event);
  }

  lemma GoOnKeepsBegun(event: Event, gen: nat, w: World, call: Call, ok: bool)
    requires BegunBy(event, gen, call)
    ensures BegunBy(event, gen, GoOn(w, call, ok).1)
  {
  }

  /** The event that made call *i* of a run. */
  lemma {:induction false} MadeBy(events: seq<Event>, n: nat, i: nat) returns (m: nat)
    requires n <= |events| && i < |At(events, n).calls|
    ensures m < n && |At(events, m).calls| == i && i < |At(events, m + 1).calls|
    ensures BegunBy(events[m], At(events, m + 1).gen, At(events, n).calls[i])
  {
    hide Step, GoOn;
    var before := At(events, n - 1);
    StepCalls(before, events[n - 1]);
    if i < |before.calls| {
      m := MadeBy(events, n - 1, i);
      if events[n - 1] == Resume(i) {
        ResumeCalls(before, i);
      }
      if events[n - 1] == Resume(i) && CanGoOn(before, i) {
        GoOnKeepsBegun(events[m], At(events, m + 1).gen, before, before.calls[i], before.landed[before.calls[i].op]);
      }
    } else {
      m := n - 1;
      NewCallBegun(before, events[m]);
    }
  }

  /** Which step lifts a withhold: a sign-in's or a lift's, at its own generation. */
  lemma LiftsOnlyAtItsGeneration(w: World, event: Event)
    requires w.withheld && !Step(w, event).withheld
    ensures
      || event.Adopt?
      || (event.Lift? && event.expected == w.gen)
      || (event.Resume? && CanGoOn(w, event.call) &&
          match w.calls[event.call]
          case AdoptLeaving(mine, _, _, _) => mine == w.gen
          case AdoptWriting(mine, _, _, _) => mine == w.gen
          case LiftWriting(expected, _, _) => expected == w.gen
          case _ => false)
  {
  }

  /** A loss wins over a pending write. Whenever a run's event *n* lifts the withhold, it is the step
      of a sign-in or a lift made at some event *m*, and no sign-in, hold, loss or release came after
      *m* up to and including *n*; a lift's expected generation is still the current one. */
  lemma LossWins(events: seq<Event>, n: nat) returns (m: nat)
    requires n < |events| && At(events, n).withheld && !At(events, n + 1).withheld
    ensures m <= n && (events[m].Adopt? || events[m].Lift?)
    ensures m == n || events[n] == Resume(|At(events, m).calls|)
    ensures forall k | m < k <= n :: !Moves(events[k])
    ensures events[m].Lift? ==> events[m].expected == At(events, n).gen
  {
    hide Step;
    var w := At(events, n);
    LiftsOnlyAtItsGeneration(w, events[n]);
    if events[n].Resume? {
      m := MadeBy(events, n, events[n].call);
      GenMoves(events, m + 1, n);
    } else {
      m := n;
    }
  }

  // ── An End while a lift is out ──

  /** An End acts: the sign-in is not signed out yet, holds a pair, and is the one the stamp names. */
  predicate EndActs(w: World, event: Event) {
    && event.End? && !w.signedOut && w.held.Some? && w.held.value.pair.Some?
    && event.stamp.token == w.held.value.token && event.stamp.gen == w.gen && (event.retiredToo || !HeldRetired(w))
  }

  /** Beside a sign-in and a shell hold, only an End that acts changes whether the sign-in is signed out. */
  lemma OnlyEndsSignOut(w: World, event: Event)
    requires !Moves(event)
    ensures Step(w, event).signedOut <==> w.signedOut || EndActs(w, event)
  {
    if event.Resume? && CanGoOn(w, event.call) {
      assert GoOn(w, w.calls[event.call], w.landed[w.calls[event.call].op]).0.signedOut == w.signedOut;
    }
  }

  lemma {:induction false} SignedOutSince(events: seq<Event>, m: nat, n: nat)
    requires m <= n <= |events| && !At(events, m).signedOut && forall k | m <= k < n :: !Moves(events[k])
    ensures At(events, n).signedOut <==> exists k :: m <= k < n && EndActs(At(events, k), events[k])
  {
    hide Step, EndActs;
    if m < n {
      SignedOutSince(events, m, n - 1);
      OnlyEndsSignOut(At(events, n - 1), events[n - 1]);
    }
  }

  /** A call that is back stays back. */
  lemma {:induction false} StaysReturned(events: seq<Event>, m: nat, n: nat, i: nat)
    requires m <= n <= |events| && i < |At(events, m).calls| && At(events, m).calls[i].Returned?
    ensures i < |At(events, n).calls| && At(events, n).calls[i].Returned?
  {
    hide Step;
    if m < n {
      StaysReturned(events, m, n - 1, i);
      var before := At(events, n - 1);
      StepCalls(before, events[n - 1]);
      if events[n - 1] == Resume(i) {
        ResumeCalls(before, i);
      }
    }
  }

  /** A sign-in, and a lift that is not turned away at once, begin not signed out. */
  lemma BeginsSignedIn(w: World, event: Event)
    requires event.Adopt? || event.Lift?
    ensures var next := Step(w, event);
            next.signedOut ==> |w.calls| < |next.calls| && next.calls[|w.calls|].Returned?
    ensures w.withheld && !Step(w, event).withheld ==> !Step(w, event).signedOut
  {
  }

  lemma LiftingIsOut(w: World, event: Event)
    requires w.withheld && !Step(w, event).withheld && event.Resume?
    ensures event.call < |w.calls| && !w.calls[event.call].Returned?
    ensures Step(w, event).signedOut == w.signedOut
  {
  }

  /** Whether the windows come back signed out, exactly: when an End acted after the sign-in or lift that
      brings them back was called and before its write landed; never otherwise. */
  lemma LiftedSignedOutExactlyWhen(events: seq<Event>, n: nat) returns (m: nat)
    requires n < |events| && At(events, n).withheld && !At(events, n + 1).withheld
    ensures m <= n && (events[m].Adopt? || events[m].Lift?)
    ensures m == n || events[n] == Resume(|At(events, m).calls|)
    ensures forall k | m < k <= n :: !Moves(events[k])
    ensures At(events, n + 1).signedOut <==> exists k :: m < k < n && EndActs(At(events, k), events[k])
  {
    hide Step, EndActs, Moves;
    m := LossWins(events, n);
    assert At(events, m + 1) == Step(At(events, m), events[m]);
    assert At(events, n + 1) == Step(At(events, n), events[n]);
    hide At;
    BeginsSignedIn(At(events, m), events[m]);
    if m < n {
      LiftingIsOut(At(events, n), events[n]);
      if At(events, m + 1).signedOut {
        StaysReturned(events, m + 1, n, |At(events, m).calls|);
      }
      SignedOutSince(events, m + 1, n);
    }
  }

  // ── Retired origins ──

  /** A sign-in of generation *gen* that has still to lift the withhold. */
  predicate IsSignIn(call: Call, gen: nat) {
    match call
    case AdoptLeaving(mine, _, _, _) => mine == gen
    case AdoptWriting(mine, _, _, _) => mine == gen
    case LiftWriting(expected, _, _) => expected == gen
    case _ => false
  }

  predicate NotAhead(call: Call, gen: nat) {
    match call
    case AdoptLeaving(mine, _, _, _) => mine <= gen
    case AdoptWriting(mine, _, _, _) => mine <= gen
    case LiftWriting(expected, _, _) => expected <= gen
    case _ => true
  }

  /** A retired origin held is withheld, and no sign-in of this generation is left to lift it. */
  ghost predicate RetiredInv(w: World) {
    && (HeldRetired(w) ==> w.withheld)
    && (forall i | 0 <= i < |w.calls| :: NotAhead(w.calls[i], w.gen))
    && (forall i | 0 <= i < |w.calls| :: IsSignIn(w.calls[i], w.gen) ==> !HeldRetired(w))
  }

  lemma GoOnKeepsRetired(w: World, i: nat)
    requires RetiredInv(w) && CanGoOn(w, i)
    ensures RetiredInv(DoResume(w, i))
  {
    var call := w.calls[i];
    var (w1, after) := GoOn(w, call, w.landed[call.op]);
    assert w1.gen == w.gen && w1.held == w.held && w1.retired == w.retired && w1.calls == w.calls;
    assert NotAhead(after, w.gen) && (IsSignIn(after, w.gen) ==> IsSignIn(call, w.gen));
    assert w1.withheld || !w.withheld || IsSignIn(call, w.gen);
  }

  /** What a call made now does to the retired origins, and how it stands itself. */
  ghost predicate CallRetires(w: World, next: World) {
    && (HeldRetired(next) ==> next.withheld)
    && (next.gen == w.gen && HeldRetired(next) ==> HeldRetired(w))
    && (|w.calls| < |next.calls| ==>
          var call := next.calls[|w.calls|];
          NotAhead(call, next.gen) && (IsSignIn(call, next.gen) ==> !HeldRetired(next)))
  }

  lemma AdoptRetires(w: World, ready: Option<Ready>, pair: Option<string>, start: Option<Start>)
    ensures CallRetires(w, DoAdopt(w, ready, pair, start))
  {
  }

  lemma LiftRetires(w: World, expected: nat, unretire: bool, start: Option<Start>)
    requires HeldRetired(w) ==> w.withheld
    ensures CallRetires(w, DoLift(w, expected, unretire, start))
  {
  }

  lemma EndRetires(w: World, stamp: Stamp, defect: bool, retiredToo: bool)
    requires HeldRetired(w) ==> w.withheld
    ensures CallRetires(w, DoEnd(w, stamp, defect, retiredToo))
  {
  }

  lemma OtherRetires(w: World, event: Event)
    requires !event.Resume? && !event.Adopt? && !event.Lift? && !event.End?
    requires HeldRetired(w) ==> w.withheld
    ensures CallRetires(w, Step(w, event))
  {
  }

  /** A call made now: the ones made before are of an earlier generation, or nothing they read moved. */
  lemma CallKeepsRetired(w: World, event: Event)
    requires RetiredInv(w) && !event.Resume?
    ensures RetiredInv(Step(w, event))
  {
    var next := Step(w, event);
    hide DoAdopt, DoLift, DoEnd;
    match event {
      case Adopt(ready, pair, start) => AdoptRetires(w, ready, pair, start);
      case Lift(expected, unretire, start) => LiftRetires(w, expected, unretire, start);
      case End(stamp, defect, retiredToo) => EndRetires(w, stamp, defect, retiredToo);
      case _ => OtherRetires(w, event);
    }
    assert CallRetires(w, next);
    hide Step;
    StepCalls(w, event);
    StepGen(w, event);
    forall i | 0 <= i < |next.calls|
      ensures NotAhead(next.calls[i], next.gen) && (IsSignIn(next.calls[i], next.gen) ==> !HeldRetired(next))
    {
      if i < |w.calls| {
        assert NotAhead(w.calls[i], w.gen);
      }
    }
  }

  lemma {:induction false} RunKeepsRetired(events: seq<Event>, n: nat)
    requires n <= |events|
    ensures RetiredInv(At(events, n))
  {
    if n > 0 {
      var before := At(events, n - 1);
      RunKeepsRetired(events, n - 1);
      if events[n - 1].Resume? {
        if CanGoOn(before, events[n - 1].call) { GoOnKeepsRetired(before, events[n - 1].call); }
      } else {
        CallKeepsRetired(before, events[n - 1]);
      }
    }
  }

  /** In every reachable state, `decide` over the sign-in's own traffic state cancels every request to
      a retired loopback origin and, while withheld, every request to the held one; and the shell's
      pair rides on no request then. */
  lemma NeverReachesRetired(events: seq<Event>, n: nat, request: Request)
    requires n <= |events|
    requires request.target.Some? && IsLoopbackHost(request.target.value.host)
    requires var w := At(events, n);
             || request.target.value in w.retired
             || (w.withheld && w.held.Some? && request.target.value == LocalOrigin(w.held.value.port))
    ensures var decision := Decide(request, TrafficState(At(events, n)));
            decision.cancel && decision.header == Strip
  {
    RunKeepsRetired(events, n);
  }

  /** An origin leaves the retired ones exactly when it is the one adopted, held for the shell, or
      named in an unretiring lift that is not turned away. */
  lemma LeavesRetiredExactlyWhen(w: World, event: Event, origin: Origin)
    requires origin in w.retired
    ensures origin !in Step(w, event).retired <==>
              match event
              case Adopt(ready, _, _) => ready.Some? && LocalOrigin(ready.value.port) == origin
              case HoldForShell(ready, _) => ready.Some? && LocalOrigin(ready.value.port) == origin
              case Lift(expected, unretire, start) =>
                && unretire && !w.signedOut && w.held.Some? && w.gen == expected
                && FromStart(w.held.value, start) && LocalOrigin(w.held.value.port) == origin
              case _ => false
  {
    if event.Resume? && CanGoOn(w, event.call) {
      assert GoOn(w, w.calls[event.call], w.landed[w.calls[event.call].op]).0.retired == w.retired;
    }
  }

  /** The documentation says nothing is lifted while signed out; the code reads the sign-out only when
      a lift is called. An End that lands while the lift's write is out does not hold it back: the
      windows come back signed out. */
  lemma LiftOutlivesEnd()
    ensures var start := Some(Start(7, 8001, "digest"));
            var events := [
              Adopt(Some(Ready(8001, "token", true)), Some("pair"), start), Lands(true), Resume(0),
              Withhold(false), Lift(2, false, start), End(Stamp("token", 2), false, false),
              Lands(true), Lands(true), Resume(2)];
            var w := At(events, 9);
            w.signedOut && !w.withheld && |w.calls| == 4 && w.calls[2] == Returned(Lifted(true))
  {
    var start := Some(Start(7, 8001, "digest"));
    var events := [
      Adopt(Some(Ready(8001, "token", true)), Some("pair"), start), Lands(true), Resume(0),
      Withhold(false), Lift(2, false, start), End(Stamp("token", 2), false, false),
      Lands(true), Lands(true), Resume(2)];
    var session := Session(8001, "token", Some("pair"), true, start, false);
    var w1 := World(Some(session), false, 1, false, true, {}, {}, [Write(8001, "token")], [], [AdoptWriting(1, session, None, 0)]);
    assert At(events, 1) == w1;
    var w3 := w1.(landed := [true], calls := [Returned(Replaced(None))]);
    assert At(events, 2) == w1.(landed := [true]);
    assert At(events, 3) == w3;
    var w4 := w3.(withheld := true, gen := 2, ops := w3.ops + [Remove(8001)], calls := w3.calls + [WithholdForgetting(2, 1)]);
    assert At(events, 4) == w4;
    var w5 := w4.(ops := w4.ops + [Write(8001, "token")], calls := w4.calls + [LiftWriting(2, session, 2)]);
    assert At(events, 5) == w5;
    var w6 := w5.(signedOut := true, calls := w5.calls + [Returned(Ended(true))]);
    assert At(events, 6) == w6;
    assert At(events, 7) == w6.(landed := [true, true]);
    var w8 := w6.(landed := [true, true, true]);
    assert At(events, 8) == w8;
    assert At(events, 9) == w8.(withheld := false, calls := w8.calls[2 := Returned(Lifted(true))]);
  }
}
