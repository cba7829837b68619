/**
 * What a sign-in brings: its cookie in the jar, the windows back, and an answer, over every interleaving
 * in which nothing overtakes it; and what the record holds, exactly.
 */
module SignInBack {
  import opened Options
  import opened WindowTraffic
  import opened SignIn
  import J = SignInJar
  import L = SignInLoss

  // ── The cookie of windows that are in ──

  /** Call *i* of this generation has still to take the replaced session's cookie out. */
  predicate LeavingNow(w: World, i: nat) {
    i < |w.calls| && w.calls[i].AdoptLeaving? && w.calls[i].mine == w.gen
  }

  ghost predicate SomeLeaving(w: World) {
    exists i: nat :: LeavingNow(w, i)
  }

  predicate HoldsForJar(w: World) {
    w.held.Some? && WritesCookie(w.held.value)
  }

  /** A session the jar takes has its cookie there, or on its way, once its write is out, and while the
      windows are in and no sign-in is still before its write. */
  ghost predicate Filled(w: World) {
    HoldsForJar(w) && (J.SomeWriting(w) || (!w.withheld && !SomeLeaving(w))) ==> JarAfter(w.ops) != map[]
  }

  lemma WriteFills(w: World, port: int, token: string)
    ensures JarAfter(Issue(w, Write(port, token)).ops) != map[]
  {
    var ops := Issue(w, Write(port, token)).ops;
    assert ops[..|ops| - 1] == w.ops;
    assert port in JarAfter(ops);
  }

  /** What a call made now does for the cookie. */
  ghost predicate FilledBy(w: World, next: World) {
    && (next.gen == w.gen ==> next.held == w.held || !HoldsForJar(next))
    && (next.gen == w.gen && HoldsForJar(next) ==> next.withheld == w.withheld && (next.ops == w.ops || JarAfter(next.ops) != map[]))
    && (|w.calls| < |next.calls| && HoldsForJar(next) && J.WritingNow(next, |w.calls|) ==> JarAfter(next.ops) != map[])
    && (next.gen != w.gen && HoldsForJar(next) && !next.withheld && !LeavingNow(next, |w.calls|) ==> JarAfter(next.ops) != map[])
  }

  lemma AdoptFills(w: World, ready: Option<Ready>, pair: Option<string>, start: Option<Start>)
    ensures FilledBy(w, DoAdopt(w, ready, pair, start))
  {
    var next := DoAdopt(w, ready, pair, start);
    if HoldsForJar(next) {
      WriteFills(w, next.held.value.port, next.held.value.token);
    }
  }

  lemma LiftFills(w: World, expected: nat, unretire: bool, start: Option<Start>)
    ensures FilledBy(w, DoLift(w, expected, unretire, start))
  {
    if HoldsForJar(w) {
      WriteFills(w, w.held.value.port, w.held.value.token);
    }
  }

  lemma EndFills(w: World, stamp: Stamp, defect: bool, retiredToo: bool)
    requires J.HeldIsWellFormed(w.held)
    ensures FilledBy(w, DoEnd(w, stamp, defect, retiredToo))
  {
  }

  lemma OtherFills(w: World, event: Event)
    requires !event.Adopt? && !event.Lift? && !event.End? && !event.Resume?
    ensures FilledBy(w, Step(w, event))
  {
  }

  lemma CallFills(w: World, event: Event)
    requires J.HeldIsWellFormed(w.held) && !event.Resume?
    ensures FilledBy(w, Step(w, event))
  {
    hide FilledBy, DoAdopt, DoLift, DoEnd, DoHoldForShell, DoWithhold, DoRelease;
    match event
    case Adopt(ready, pair, start) => AdoptFills(w, ready, pair, start);
    case Lift(expected, unretire, start) => LiftFills(w, expected, unretire, start);
    case End(stamp, defect, retiredToo) => EndFills(w, stamp, defect, retiredToo);
    case _ => OtherFills(w, event);
  }

  lemma CallKeepsFilled(w: World, event: Event)
    requires J.OpsInv(w) && J.WritesInv(w) && Filled(w) && !event.Resume?
    ensures Filled(Step(w, event))
  {
    var next := Step(w, event);
    CallFills(w, event);
    L.StepCalls(w, event);
    L.StepGen(w, event);
    hide Step;
    if HoldsForJar(next) && J.SomeWriting(next) {
      var i: nat :| J.WritingNow(next, i);
      if i < |w.calls| {
        assert J.StampedBy(w.calls[i], w.gen);
        assert J.WritingNow(w, i);
      }
    } else if HoldsForJar(next) && !next.withheld && !SomeLeaving(next) && next.gen == w.gen {
      forall i: nat ensures !LeavingNow(w, i) {
        assert !LeavingNow(next, i);
      }
    }
  }

  /** What a call going on does for the cookie. */
  ghost predicate GoneOnFills(w: World, call: Call, next: World, after: Call) {
    && next.held == w.held && next.gen == w.gen && next.calls == w.calls
    && (HoldsForJar(w) && (J.IsWrite(after, w.gen) || LeavesNow(call, w.gen)) ==> JarAfter(next.ops) != map[])
    && (HoldsForJar(w) && !LeavesNow(call, w.gen) ==>
          && JarAfter(next.ops) == JarAfter(w.ops)
          && (next.withheld == w.withheld || J.IsWrite(call, w.gen)))
    && (after.AdoptLeaving? ==> after == call)
  }

  predicate LeavesNow(call: Call, gen: nat) {
    call.AdoptLeaving? && call.mine == gen
  }

  lemma LeavingFills(w: World, call: Call, ok: bool)
    requires call.AdoptLeaving?
    ensures GoneOnFills(w, call, GoOn(w, call, ok).0, GoOn(w, call, ok).1)
  {
    if HoldsForJar(w) {
      WriteFills(w, w.held.value.port, w.held.value.token);
    }
    hide JarAfter;
  }

  lemma AdoptWritingFills(w: World, call: Call)
    requires J.OpsInv(w) && call.AdoptWriting?
    ensures GoneOnFills(w, call, GoOn(w, call, true).0, GoOn(w, call, true).1)
  {
    if MustSettle(w, call.session) {
      J.SettleKeepsOps(w, call.session);
    }
    hide JarAfter, J.OpsInv, AdoptOn;
  }

  lemma LiftWritingFills(w: World, call: Call)
    requires J.OpsInv(w) && call.LiftWriting?
    ensures GoneOnFills(w, call, GoOn(w, call, true).0, GoOn(w, call, true).1)
  {
    if MustSettle(w, call.session) {
      J.SettleKeepsOps(w, call.session);
    }
    hide JarAfter, J.OpsInv, AdoptOn;
  }

  lemma GoOnFills(w: World, call: Call)
    requires J.OpsInv(w)
    ensures GoneOnFills(w, call, GoOn(w, call, true).0, GoOn(w, call, true).1)
  {
    if call.AdoptLeaving? {
      LeavingFills(w, call, true);
      hide GoOn;
    } else if call.AdoptWriting? {
      AdoptWritingFills(w, call);
      hide GoOn;
    } else if call.LiftWriting? {
      LiftWritingFills(w, call);
      hide GoOn;
    }
    hide JarAfter, J.OpsInv;
  }

  lemma GoOnKeepsFilled(w: World, i: nat)
    requires J.OpsInv(w) && Filled(w) && CanGoOn(w, i)
    ensures Filled(DoResume(w, i))
  {
    var next := DoResume(w, i);
    var call := w.calls[i];
    GoOnFills(w, call);
    var (w1, after) := GoOn(w, call, w.landed[call.op]);
    hide GoOn, JarAfter;
    assert next.calls == w.calls[i := after] && next.gen == w.gen && next.held == w.held;
    if HoldsForJar(next) && JarAfter(w.ops) == map[] && JarAfter(next.ops) == map[] {
      assert J.IsWrite(call, w.gen) ==> J.WritingNow(w, i);
      assert forall k: nat | J.WritingNow(next, k) :: k == i || J.WritingNow(w, k);
      assert forall k: nat | LeavingNow(w, k) :: k == i || LeavingNow(next, k);
    }
  }

  lemma {:induction false} RunKeepsFilled(events: seq<Event>, n: nat)
    requires n <= |events| && J.AllWelcome(events)
    ensures Filled(At(events, n))
  {
    if n == 0 {
      assert At(events, 0) == Init;
    } else {
      var before := At(events, n - 1);
      RunKeepsFilled(events, n - 1);
      J.RunKeepsJar(events, n - 1);
      hide Filled, J.OpsInv, J.WritesInv;
      if !events[n - 1].Resume? {
        CallKeepsFilled(before, events[n - 1]);
      } else if CanGoOn(before, events[n - 1].call) {
        GoOnKeepsFilled(before, events[n - 1].call);
      }
    }
  }

  /** Windows that are in have their cookie, over every run: with the windows not withheld, no sign-in still
      before its write and no operation outstanding on it, the jar holds the held session's cookie and
      nothing else. */
  lemma WindowsInHaveTheirCookie(events: seq<Event>, n: nat)
    requires n <= |events| && J.AllWelcome(events)
    requires var w := At(events, n);
             HoldsForJar(w) && !w.withheld && !SomeLeaving(w) && J.NoneOwed(w, w.held.value.port)
    ensures var w := At(events, n);
            |w.landed| <= |w.ops| && JarNow(w) == map[w.held.value.port := w.held.value.token]
  {
    RunKeepsFilled(events, n);
    J.RunKeepsJar(events, n);
    InTheJarNow(At(events, n));
  }

  /** The whole jar of windows that are in, once nothing is outstanding: the held session's cookie when it has
      a token, is not the shell's own, and has its pair if its gateway has the window's door; else nothing. */
  lemma JarOfWindowsIn(events: seq<Event>, n: nat)
    requires n <= |events| && J.AllWelcome(events)
    requires var w := At(events, n); !w.withheld && !SomeLeaving(w) && |w.landed| == |w.ops|
    ensures var w := At(events, n);
            JarNow(w) ==
              if w.held.Some? && w.held.value.token != "" && !w.held.value.forShell
                 && (!w.held.value.windowDoor || w.held.value.pair.Some?)
              then map[w.held.value.port := w.held.value.token] else map[]
  {
    J.JarIsSafeOnceLanded(events, n);
    if HoldsForJar(At(events, n)) {
      WindowsInHaveTheirCookie(events, n);
    }
    hide At, JarNow;
  }

  lemma InTheJarNow(w: World)
    requires J.OpsInv(w) && HoldsForJar(w) && JarAfter(w.ops) != map[] && J.NoneOwed(w, w.held.value.port)
    ensures JarNow(w) == map[w.held.value.port := w.held.value.token]
  {
    J.JarIsPrefix(w.ops, w.landed);
    J.PrefixNeverTwo(w.ops, |w.landed|);
    J.OthersLeave(w.ops, |w.landed|, w.held.value.port);
    hide JarAfter, JarOf;
    assert forall p | p in JarNow(w) :: p == w.held.value.port;
  }

  // ── When the windows are let in, and when they are kept out ──

  /** A sign-in for which nothing is left to write: the gateway gave no session. */
  predicate AsksForNone(held: Option<Session>, ready: Option<Ready>) {
    ready.Some? && (held.None? || held.value.token == "")
  }

  /** A session with its token that the jar does not take. */
  predicate KeepsOut(held: Option<Session>) {
    held.Some? && held.value.token != "" && !WritesCookie(held.value)
  }

  /** A lift that is not turned away: of the session held, not signed out, at its own generation, proven for
      the start it came from, its origin not retired or unretired by it. */
  predicate LiftIsTaken(w: World, event: Event) {
    && event.Lift? && !w.signedOut && w.held.Some? && w.gen == event.expected
    && (w.held.value.start.None? || w.held.value.start == event.start)
    && (event.unretire || LocalOrigin(w.held.value.port) !in w.retired)
  }

  /** The withhold is cleared exactly by the write of a sign-in or a lift that lands at its own generation,
      or by a sign-in or a lift with no session to write. */
  lemma LetInExactlyWhen(w: World, event: Event)
    requires w.withheld
    ensures !Step(w, event).withheld <==>
              match event
              case Adopt(ready, pair, start) =>
                var held := SessionOf(ready, pair, start); !Moves(w.held, held) && AsksForNone(held, ready)
              case Lift(_, _, _) => LiftIsTaken(w, event) && !w.held.value.forShell && w.held.value.token == ""
              case Resume(i) =>
                CanGoOn(w, i) &&
                (match w.calls[i]
                 case AdoptLeaving(mine, _, ready, _) => mine == w.gen && AsksForNone(w.held, ready)
                 case AdoptWriting(mine, _, _, op) => mine == w.gen && w.landed[op]
                 case LiftWriting(expected, _, op) => expected == w.gen && w.landed[op]
                 case _ => false)
              case _ => false
  {
  }

  /** It is set exactly by a loss, by the shell's own hold, and by a sign-in whose session the jar does not
      take. */
  lemma KeptOutExactlyWhen(w: World, event: Event)
    requires !w.withheld
    ensures Step(w, event).withheld <==>
              match event
              case Withhold(_) => true
              case HoldForShell(_, _) => true
              case Adopt(ready, pair, start) => var held := SessionOf(ready, pair, start); !Moves(w.held, held) && KeepsOut(held)
              case Resume(i) =>
                CanGoOn(w, i) && w.calls[i].AdoptLeaving? && w.calls[i].mine == w.gen && KeepsOut(w.held)
              case _ => false
  {
  }

  // ── What nothing overtakes ends with the windows in ──

  /** How many landings a call still waits for at most. */
  function Left(call: Call): nat {
    match call
    case AdoptLeaving(_, _, _, _) => 3
    case AdoptWriting(_, _, _, _) => 2
    case LiftWriting(_, _, _) => 2
    case Returned(_) => 0
    case _ => 1
  }

  /** Every call ends: whatever operation it awaits, once landed, brings it on, at most three times. */
  lemma CallsEnd(w: World, i: nat)
    requires CanGoOn(w, i)
    ensures Left(DoResume(w, i).calls[i]) < Left(w.calls[i]) <= 3
    ensures Left(w.calls[i]) == 0 <==> w.calls[i].Returned?
  {
  }

  /** Call *i*, a sign-in or lift of generation *gen*, is on its way, or back with the windows in. */
  ghost predicate OnItsWay(w: World, i: nat, gen: nat) {
    && w.gen == gen && i < |w.calls|
    && (L.IsSignIn(w.calls[i], gen) || (!w.withheld && JarAfter(w.ops) != map[] && SaysSo(w.calls[i])))
  }

  /** It is back, a lift saying so. */
  predicate SaysSo(call: Call) {
    call.Returned? && (call.result.Lifted? ==> call.result.lifted)
  }

  lemma HeldStays(w: World, event: Event)
    requires !L.Moves(event) && HoldsForJar(Step(w, event))
    ensures HoldsForJar(w)
  {
    if event.Resume? && CanGoOn(w, event.call) {
      assert GoOn(w, w.calls[event.call], w.landed[w.calls[event.call].op]).0.held == w.held;
    }
    hide GoOn;
  }

  lemma AsideStaysOnItsWay(w: World, event: Event, i: nat, gen: nat)
    requires J.OpsInv(w) && OnItsWay(w, i, gen) && !L.Moves(event) && !event.Resume?
    requires HoldsForJar(Step(w, event))
    ensures OnItsWay(Step(w, event), i, gen)
  {
    HeldStays(w, event);
    CallFills(w, event);
    L.StepCalls(w, event);
    L.StepGen(w, event);
    hide Step, DoLift, JarAfter, J.OpsInv;
  }

  lemma TheCallGoesOn(w: World, i: nat, gen: nat)
    requires J.OpsInv(w) && Filled(w) && OnItsWay(w, i, gen) && HoldsForJar(w) && CanGoOn(w, i)
    ensures OnItsWay(DoResume(w, i), i, gen)
  {
    assert J.IsWrite(w.calls[i], gen) ==> J.WritingNow(w, i);
    hide JarAfter;
  }

  lemma AnotherGoesOn(w: World, k: nat, i: nat, gen: nat)
    requires J.OpsInv(w) && OnItsWay(w, i, gen) && HoldsForJar(w) && CanGoOn(w, k) && k != i
    ensures OnItsWay(DoResume(w, k), i, gen)
  {
    var call := w.calls[k];
    GoOnFills(w, call);
    if !w.withheld && DoResume(w, k).withheld {
      KeptOutExactlyWhen(w, Resume(k));
    }
    var (next, after) := GoOn(w, call, w.landed[call.op]);
    hide GoOn, JarAfter, J.OpsInv;
    assert DoResume(w, k) == next.(calls := w.calls[k := after]);
  }

  lemma StepStaysOnItsWay(w: World, event: Event, i: nat, gen: nat)
    requires J.OpsInv(w) && Filled(w) && OnItsWay(w, i, gen) && !L.Moves(event) && HoldsForJar(Step(w, event))
    ensures OnItsWay(Step(w, event), i, gen)
  {
    HeldStays(w, event);
    hide J.OpsInv, Filled, OnItsWay;
    if !event.Resume? {
      AsideStaysOnItsWay(w, event, i, gen);
    } else if CanGoOn(w, event.call) {
      if event.call == i {
        TheCallGoesOn(w, i, gen);
      } else {
        AnotherGoesOn(w, event.call, i, gen);
      }
    }
  }

  /** A session the jar takes, if it is held at the end, was all along. */
  lemma {:induction false} HeldAllAlong(events: seq<Event>, m: nat, n: nat)
    requires m <= n <= |events| && (forall k | m <= k < n :: !L.Moves(events[k])) && HoldsForJar(At(events, n))
    ensures HoldsForJar(At(events, m))
  {
    hide Step;
    if m < n {
      HeldStays(At(events, n - 1), events[n - 1]);
      HeldAllAlong(events, m, n - 1);
    }
  }

  lemma {:induction false} RunStaysOnItsWay(events: seq<Event>, m: nat, n: nat, i: nat, gen: nat)
    requires m <= n <= |events| && J.AllWelcome(events) && OnItsWay(At(events, m), i, gen)
    requires (forall k | m <= k < n :: !L.Moves(events[k])) && HoldsForJar(At(events, n))
    ensures OnItsWay(At(events, n), i, gen)
  {
    hide Step, OnItsWay, Filled, J.OpsInv;
    if m < n {
      HeldStays(At(events, n - 1), events[n - 1]);
      RunStaysOnItsWay(events, m, n - 1, i, gen);
      RunKeepsFilled(events, n - 1);
      J.RunKeepsJar(events, n - 1);
      StepStaysOnItsWay(At(events, n - 1), events[n - 1], i, gen);
    }
  }

  lemma AdoptBegins(w: World, event: Event)
    requires event.Adopt? && HoldsForJar(Step(w, event))
    ensures OnItsWay(Step(w, event), |w.calls|, w.gen + 1)
  {
  }

  lemma LiftBegins(w: World, event: Event)
    requires LiftIsTaken(w, event) && HoldsForJar(Step(w, event))
    ensures OnItsWay(Step(w, event), |w.calls|, w.gen)
  {
  }

  /** A sign-in, or a lift not turned away, that nothing overtakes brings the windows back, over every run:
      once its call is back, with no sign-in, hold, loss or release since it was made and a session the jar
      takes held, the windows are in, a lift says so, and, with nothing outstanding on it, the jar holds
      the session's cookie and nothing else. */
  lemma SignInBringsWindowsBack(events: seq<Event>, m: nat, n: nat)
    requires m < n <= |events| && J.AllWelcome(events)
    requires events[m].Adopt? || LiftIsTaken(At(events, m), events[m])
    requires (forall k | m < k < n :: !L.Moves(events[k])) && HoldsForJar(At(events, n))
    requires |At(events, m).calls| < |At(events, n).calls| && At(events, n).calls[|At(events, m).calls|].Returned?
    ensures var w := At(events, n);
            && !w.withheld && SaysSo(w.calls[|At(events, m).calls|])
            && (J.NoneOwed(w, w.held.value.port) ==>
                  |w.landed| <= |w.ops| && JarNow(w) == map[w.held.value.port := w.held.value.token])
  {
    hide Step, LiftIsTaken, OnItsWay, Filled, J.OpsInv;
    SignInBegins(events, m, n);
    RunStaysOnItsWay(events, m + 1, n, |At(events, m).calls|, At(events, m + 1).gen);
    J.RunKeepsJar(events, n);
    hide At, HoldsForJar, L.Moves;
    BackIsIn(At(events, n), |At(events, m).calls|, At(events, m + 1).gen);
    if J.NoneOwed(At(events, n), At(events, n).held.value.port) {
      InTheJarNow(At(events, n));
    }
  }

  lemma SignInBegins(events: seq<Event>, m: nat, n: nat)
    requires m < n <= |events| && (events[m].Adopt? || LiftIsTaken(At(events, m), events[m]))
    requires (forall k | m < k < n :: !L.Moves(events[k])) && HoldsForJar(At(events, n))
    ensures OnItsWay(At(events, m + 1), |At(events, m).calls|, At(events, m + 1).gen)
  {
    hide Step, OnItsWay;
    HeldAllAlong(events, m + 1, n);
    L.StepGen(At(events, m), events[m]);
    if events[m].Adopt? {
      AdoptBegins(At(events, m), events[m]);
    } else {
      LiftBegins(At(events, m), events[m]);
    }
  }

  lemma BackIsIn(w: World, i: nat, gen: nat)
    requires OnItsWay(w, i, gen) && w.calls[i].Returned?
    ensures !w.withheld && JarAfter(w.ops) != map[] && SaysSo(w.calls[i])
  {
  }

  // ── What is held ──

  /** The session a sign-in or a hold takes. */
  function TakenBy(event: Event): Option<Session> {
    match event
    case Adopt(ready, pair, start) => SessionOf(ready, pair, start)
    case HoldForShell(ready, start) =>
      var session := SessionOf(ready, None, start);
      if session.Some? then Some(session.value.(forShell := true)) else None
    case _ => None
  }

  predicate Takes(event: Event) {
    event.Adopt? || event.HoldForShell? || event.Release?
  }

  /** The last of the first *n* events that took or released a session. */
  function LastTaking(events: seq<Event>, n: nat): (k: Option<nat>)
    requires n <= |events|
    ensures k.Some? ==> k.value < n && Takes(events[k.value]) && forall j | k.value < j < n :: !Takes(events[j])
    ensures k.None? ==> forall j | 0 <= j < n :: !Takes(events[j])
  {
    if n == 0 then None else if Takes(events[n - 1]) then Some(n - 1) else LastTaking(events, n - 1)
  }

  lemma HeldNext(w: World, event: Event)
    ensures Step(w, event).held ==
              if Takes(event) then TakenBy(event)
              else if L.EndActs(w, event) && event.defect then Some(w.held.value.(pair := None)) else w.held
    ensures L.EndActs(w, event) ==> event.End? && w.held.Some?
  {
    if event.Resume? && CanGoOn(w, event.call) {
      assert GoOn(w, w.calls[event.call], w.landed[w.calls[event.call].op]).0.held == w.held;
    }
    hide GoOn;
  }

  /** An End for a defect acted since event *k*. */
  ghost predicate DefectSince(events: seq<Event>, k: nat, n: nat)
    requires n <= |events|
  {
    exists j :: k < j < n && L.EndActs(At(events, j), events[j]) && events[j].defect
  }

  /** What is held, over every run: the session the last sign-in or hold took, unless one was released
      since; without its pair exactly when an End for a defect acted on it. */
  lemma {:induction false} HeldIsTheLastTaken(events: seq<Event>, n: nat)
    requires n <= |events|
    ensures var k := LastTaking(events, n);
            At(events, n).held ==
              if k.None? then None
              else
                var taken := TakenBy(events[k.value]);
                if taken.Some? && DefectSince(events, k.value, n) then Some(taken.value.(pair := None)) else taken
  {
    hide Step, L.EndActs;
    if n > 0 {
      HeldIsTheLastTaken(events, n - 1);
      HeldNext(At(events, n - 1), events[n - 1]);
    }
  }

  /** Whether the sign-in is ended, over every run: an End acted and no sign-in or hold came since. */
  lemma {:induction false} SignedOutExactlyWhen(events: seq<Event>, n: nat)
    requires n <= |events|
    ensures At(events, n).signedOut <==> exists k :: EndStands(events, k, n)
  {
    hide Step, L.EndActs;
    if n > 0 {
      SignedOutExactlyWhen(events, n - 1);
      SignedOutNext(At(events, n - 1), events[n - 1]);
      assert EndStands(events, n - 1, n) <==> L.EndActs(At(events, n - 1), events[n - 1]);
      hide At;
      if At(events, n).signedOut && At(events, n - 1).signedOut {
        var k :| EndStands(events, k, n - 1);
        assert EndStands(events, k, n);
      }
      if k :| EndStands(events, k, n) {
        assert k < n - 1 ==> EndStands(events, k, n - 1);
      }
    }
  }

  /** Event *k* is an End that acted, and no sign-in or hold came since. */
  ghost predicate EndStands(events: seq<Event>, k: int, n: nat)
    requires n <= |events|
  {
    && 0 <= k < n && L.EndActs(At(events, k), events[k])
    && forall j | k < j < n :: !events[j].Adopt? && !events[j].HoldForShell?
  }

  lemma SignedOutNext(w: World, event: Event)
    ensures Step(w, event).signedOut <==>
              !event.Adopt? && !event.HoldForShell? && (w.signedOut || L.EndActs(w, event))
    ensures L.EndActs(w, event) ==> event.End?
  {
    if !L.Moves(event) {
      L.OnlyEndsSignOut(w, event);
    }
    hide DoResume, DoEnd, DoLift;
  }

  /** An origin joins the retired ones exactly when a loss retires the one held, or it is retired by name
      and is not the one held. */
  lemma JoinsRetiredExactlyWhen(w: World, event: Event, origin: Origin)
    requires origin !in w.retired
    ensures origin in Step(w, event).retired <==>
              match event
              case Withhold(retire) => retire && w.held.Some? && LocalOrigin(w.held.value.port) == origin
              case RetireOrigin(named) => named == Some(origin) && (w.held.None? || LocalOrigin(w.held.value.port) != origin)
              case _ => false
  {
    if event.Resume? && CanGoOn(w, event.call) {
      assert GoOn(w, w.calls[event.call], w.landed[w.calls[event.call].op]).0.retired == w.retired;
    }
  }

  /** Whether the window's cookie is still the held session's: as the last change of it in the jar says,
      but after a sign-in, a hold, or a lift's write of it, which say it is. */
  lemma FollowsExactlyWhen(w: World, event: Event)
    ensures Step(w, event).cookieFollows <==>
              match event
              case Adopt(_, _, _) => true
              case HoldForShell(_, _) => true
              case CookieChanged(port, value, removed) =>
                if w.held.Some? && port == w.held.value.port && !removed then value == w.held.value.token else w.cookieFollows
              case Resume(i) =>
                w.cookieFollows || (CanGoOn(w, i) && w.calls[i].LiftWriting? && w.calls[i].expected == w.gen && w.landed[w.calls[i].op])
              case _ => w.cookieFollows
  {
  }

  // ── What a call writes and answers ──

  /** A sign-in that goes on at its own generation, the replaced cookie out of the jar, issues exactly the
      write of the session held. */
  lemma SignInWritesExactly(w: World, i: nat)
    requires CanGoOn(w, i) && w.calls[i].AdoptLeaving? && w.calls[i].mine == w.gen && HoldsForJar(w)
    ensures DoResume(w, i).ops == w.ops + [Write(w.held.value.port, w.held.value.token)]
    ensures DoResume(w, i).calls[i].AdoptWriting? && DoResume(w, i).calls[i].op == |w.ops|
  {
  }

  /** A lift is turned away exactly when it is not taken; taken, it says so at once or awaits its write. */
  lemma LiftIsTurnedAwayExactlyWhen(w: World, event: Event)
    requires event.Lift?
    ensures var next := Step(w, event);
            var call := next.calls[|w.calls|];
            && (call == Returned(Lifted(false)) <==> !LiftIsTaken(w, event))
            && (LiftIsTaken(w, event) ==>
                  if HoldsForJar(w) then call.LiftWriting? && next.ops == w.ops + [Write(w.held.value.port, w.held.value.token)]
                  else call == Returned(Lifted(true)) && next.ops == w.ops)
  {
  }

  /** And the write of a lift that was overtaken, or failed, has it answer that nothing was lifted. */
  lemma OvertakenLiftSaysSo(w: World, i: nat)
    requires CanGoOn(w, i) && w.calls[i].LiftWriting?
    ensures var next, session := DoResume(w, i), w.calls[i].session;
            if w.landed[w.calls[i].op] && w.gen == w.calls[i].expected then next.calls[i] == Returned(Lifted(true))
            else if w.landed[w.calls[i].op] && (w.held.None? || w.held.value.port != session.port) then
              next.calls[i].LiftSettling? && next.ops == w.ops + [Remove(session.port)]
            else next.calls[i] == Returned(Lifted(false)) && next.ops == w.ops
  {
  }

  /** An End says that it ended the sign-in exactly when it did; a refused pair takes the cookie too. */
  lemma EndSaysSo(w: World, event: Event)
    requires event.End?
    ensures var next := Step(w, event);
            var call := next.calls[|w.calls|];
            && (call == Returned(Ended(false)) <==> !L.EndActs(w, event))
            && (L.EndActs(w, event) ==>
                  if event.defect then call == EndForgetting(|w.ops|) && next.ops == w.ops + [Remove(w.held.value.port)]
                  else call == Returned(Ended(true)) && next.ops == w.ops)
  {
  }

  /** The write of a sign-in that was overtaken takes its cookie back out, unless the session held since is
      under the same name; what it replaced is handed back all the same. */
  lemma OvertakenSignInSettles(w: World, i: nat)
    requires CanGoOn(w, i) && w.calls[i].AdoptWriting? && w.landed[w.calls[i].op] && w.gen != w.calls[i].mine
    ensures var next, call := DoResume(w, i), w.calls[i];
            if w.held.None? || w.held.value.port != call.session.port then
              next.ops == w.ops + [Remove(call.session.port)] && next.calls[i] == AdoptSettling(call.handed, |w.ops|)
            else next.ops == w.ops && next.calls[i] == Returned(Replaced(call.handed))
  {
  }

  /** A loss answers with the generation it moved to. */
  predicate SaysGen(call: Call, gen: nat) {
    call == Returned(NewGen(gen)) || (call.WithholdForgetting? && call.mine == gen)
  }

  lemma {:induction false} LossSaysItsGeneration(events: seq<Event>, m: nat, n: nat)
    requires m < n <= |events| && events[m].Withhold?
    ensures |At(events, m).calls| < |At(events, n).calls|
    ensures SaysGen(At(events, n).calls[|At(events, m).calls|], At(events, m + 1).gen)
  {
    hide Step;
    if m + 1 < n {
      LossSaysItsGeneration(events, m, n - 1);
      L.StepCalls(At(events, n - 1), events[n - 1]);
      SaysItStill(At(events, n - 1), events[n - 1], |At(events, m).calls|, At(events, m + 1).gen);
    } else {
      LossSays(At(events, m), events[m]);
    }
  }

  lemma LossSays(w: World, event: Event)
    requires event.Withhold?
    ensures var next := Step(w, event); |next.calls| == |w.calls| + 1 && SaysGen(next.calls[|w.calls|], next.gen)
  {
  }

  lemma SaysItStill(w: World, event: Event, i: nat, gen: nat)
    requires i < |w.calls| && SaysGen(w.calls[i], gen)
    ensures i < |Step(w, event).calls| && SaysGen(Step(w, event).calls[i], gen)
  {
    L.StepCalls(w, event);
    if event == Resume(i) {
      L.ResumeCalls(w, i);
      hide Step;
    } else {
      hide Step;
    }
  }

  /** A release answers with the session it let go, and an End that acted that it ended one. */
  lemma ForgottenIsAnswered(w: World, i: nat)
    requires CanGoOn(w, i)
    ensures w.calls[i].ReleaseForgetting? ==> DoResume(w, i).calls[i] == Returned(Released(Some(w.calls[i].session)))
    ensures w.calls[i].EndForgetting? ==> DoResume(w, i).calls[i] == Returned(Ended(true))
  {
  }

  /** The owner's added origins are those last set. */
  lemma {:induction false} PairedAreTheLastSet(events: seq<Event>, n: nat)
    requires n <= |events|
    ensures forall k | 0 <= k < n && events[k].SetPaired? && (forall j | k < j < n :: !events[j].SetPaired?) ::
              At(events, n).paired == events[k].origins
  {
    if n > 0 {
      PairedAreTheLastSet(events, n - 1);
      PairedNext(At(events, n - 1), events[n - 1]);
    }
    hide Step;
  }

  lemma PairedNext(w: World, event: Event)
    ensures Step(w, event).paired == if event.SetPaired? then event.origins else w.paired
  {
    if event.Resume? && CanGoOn(w, event.call) {
      assert GoOn(w, w.calls[event.call], w.landed[w.calls[event.call].op]).0.paired == w.paired;
    }
    hide GoOn;
  }

  /** What the windows reach of this computer, and with whose pair, as the record stands. */
  lemma ReachesExactlyWhen(w: World, request: Request, headers: Headers)
    requires request.target.Some? && IsLoopbackHost(request.target.value.host)
    ensures var held := w.held.Some? && request.target.value == LocalOrigin(w.held.value.port);
            var decision := Decide(request, TrafficState(w));
            && (!decision.cancel <==>
                  if held then !w.withheld else request.target.value in w.paired && request.target.value !in w.retired)
            && (held && w.held.value.pair.Some? && !w.withheld && w.cookieFollows && request.initiator == request.target
                && request.hasWebContents && !request.resource.OtherResource? ==>
                  HeadersFor(headers, decision) == (headers - {REFERER})[PAIR_HEADER := w.held.value.pair.value])
  {
    ReachesLoopbackExactlyWhen(request, TrafficState(w));
    PairIsSentExactlyWhen(request, TrafficState(w), headers);
    hide Decide, HeadersFor;
  }
}
