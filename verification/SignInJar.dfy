/**
 * What the window's jar holds, over every interleaving of the sign-in's calls: at most one cookie,
 * and, but for one a later operation is already on its way to, only the held session's own, while the
 * windows are withheld only for a write begun at the current generation.
 */
module SignInJar {
  import opened Options
  import opened SignIn

  /** What the shell promises of a call: every ready line has a token, and a pair comes only with
      the window's door; and of the store: no operation fails. */
  predicate Welcome(event: Event) {
    match event
    case Adopt(ready, pair, _) => ready.Some? ==> ready.value.token != "" && (pair.Some? ==> ready.value.windowDoor)
    case HoldForShell(ready, _) => ready.Some? ==> ready.value.token != ""
    case Lands(ok) => ok
    case _ => true
  }

  ghost predicate AllWelcome(events: seq<Event>) {
    forall i | 0 <= i < |events| :: Welcome(events[i])
  }

  predicate IsWrite(call: Call, gen: nat) {
    match call
    case AdoptWriting(mine, _, _, _) => mine == gen
    case LiftWriting(expected, _, _) => expected == gen
    case _ => false
  }

  /** Call *i* awaits a write of the window's cookie begun at the current generation. */
  predicate WritingNow(w: World, i: nat) {
    i < |w.calls| && IsWrite(w.calls[i], w.gen)
  }

  predicate StampedBy(call: Call, gen: nat) {
    match call
    case AdoptWriting(mine, _, _, _) => mine <= gen
    case LiftWriting(expected, _, _) => expected <= gen
    case _ => true
  }

  predicate HeldIsWellFormed(held: Option<Session>) {
    held.Some? ==> held.value.token != "" && (held.value.pair.Some? ==> held.value.windowDoor)
  }

  /** *jar* is empty, or the held session's own cookie, and that session is one the jar takes. */
  predicate OwnCookieOnly(jar: Jar, held: Option<Session>) {
    jar == map[] || (held.Some? && WritesCookie(held.value) && jar == map[held.value.port := held.value.token])
  }

  predicate AtMostOne(jar: Jar) {
    forall p, q | p in jar && q in jar :: p == q
  }

  /** At no point of *ops* do two cookies stand in the jar. */
  predicate NeverTwo(ops: seq<Op>) {
    AtMostOne(JarAfter(ops)) && (ops == [] || NeverTwo(ops[..|ops| - 1]))
  }

  /** The half of the invariant that the operations and the held session make. */
  ghost predicate OpsInv(w: World) {
    && |w.landed| <= |w.ops|
    && (forall i | 0 <= i < |w.landed| :: w.landed[i])
    && HeldIsWellFormed(w.held)
    && OwnCookieOnly(JarAfter(w.ops), w.held)
    && NeverTwo(w.ops)
  }

  ghost predicate SomeWriting(w: World) {
    exists i: nat :: WritingNow(w, i)
  }

  ghost predicate NoneAhead(w: World) {
    forall i | 0 <= i < |w.calls| :: StampedBy(w.calls[i], w.gen)
  }

  /** While withheld, what is in the jar is still being written by a call of this generation. */
  ghost predicate AwaitsInv(w: World) {
    && NoneAhead(w)
    && (w.withheld && JarAfter(w.ops) != map[] ==> SomeWriting(w))
  }

  predicate SameCookie(session: Session, held: Option<Session>) {
    held.Some? && held.value.port == session.port && held.value.token == session.token
  }

  /** The write *call* awaits, if it was begun at generation *gen*, is of the held session's own cookie. */
  predicate WritesHeld(call: Call, gen: nat, held: Option<Session>) {
    match call
    case AdoptWriting(mine, session, _, _) => mine == gen ==> SameCookie(session, held)
    case LiftWriting(expected, session, _) => expected == gen ==> SameCookie(session, held)
    case _ => true
  }

  ghost predicate AllWriteHeld(w: World) {
    forall i | 0 <= i < |w.calls| :: WritesHeld(w.calls[i], w.gen, w.held)
  }

  /** The half that the suspended calls make. */
  ghost predicate WritesInv(w: World) {
    AwaitsInv(w) && AllWriteHeld(w)
  }

  lemma IssueApplies(w: World, op: Op)
    requires NeverTwo(w.ops)
    ensures JarAfter(Issue(w, op).ops) == Apply(JarAfter(w.ops), op)
    ensures AtMostOne(Apply(JarAfter(w.ops), op)) ==> NeverTwo(Issue(w, op).ops)
  {
    assert (w.ops + [op])[..|w.ops|] == w.ops;
  }

  lemma RemoveEmpties(jar: Jar, held: Session)
    requires OwnCookieOnly(jar, Some(held))
    ensures jar - {held.port} == map[]
  {
  }

  lemma RemoveLeaves(jar: Jar, held: Option<Session>, port: int)
    requires OwnCookieOnly(jar, held) && (held.None? || held.value.port != port)
    ensures jar - {port} == jar
  {
  }

  lemma WriteReplaces(jar: Jar, held: Option<Session>, session: Session)
    requires OwnCookieOnly(jar, held) && (held.None? || held.value.port == session.port)
    ensures jar[session.port := session.token] == map[session.port := session.token]
  {
  }

  /** The held session's cookie taken out of the jar, whatever is held from then on. */
  lemma ForgetHeld(w: World, next: World)
    requires OpsInv(w) && w.held.Some?
    requires next.ops == Issue(w, Remove(w.held.value.port)).ops && next.landed == w.landed
    requires HeldIsWellFormed(next.held)
    ensures OpsInv(next) && JarAfter(next.ops) == map[]
  {
    IssueApplies(w, Remove(w.held.value.port));
    RemoveEmpties(JarAfter(w.ops), w.held.value);
  }

  /** The cookie of a session no longer held under its name taken out once more. */
  lemma ForgetStray(w: World, next: World, port: int)
    requires OpsInv(w) && (w.held.None? || w.held.value.port != port)
    requires next.ops == Issue(w, Remove(port)).ops && next.landed == w.landed && next.held == w.held
    ensures OpsInv(next) && JarAfter(next.ops) == JarAfter(w.ops)
  {
    IssueApplies(w, Remove(port));
    RemoveLeaves(JarAfter(w.ops), w.held, port);
  }

  /** The session held from now on written over whatever the jar holds under its name. */
  lemma WriteHeld(w: World, next: World)
    requires OpsInv(w) && next.held.Some? && WritesCookie(next.held.value) && HeldIsWellFormed(next.held)
    requires w.held.None? || w.held.value.port == next.held.value.port
    requires next.ops == Issue(w, Write(next.held.value.port, next.held.value.token)).ops && next.landed == w.landed
    ensures OpsInv(next)
  {
    IssueApplies(w, Write(next.held.value.port, next.held.value.token));
    WriteReplaces(JarAfter(w.ops), w.held, next.held.value);
  }

  lemma AdoptKeepsOps(w: World, ready: Option<Ready>, pair: Option<string>, start: Option<Start>)
    requires OpsInv(w) && Welcome(Adopt(ready, pair, start))
    ensures OpsInv(DoAdopt(w, ready, pair, start))
    ensures var next := DoAdopt(w, ready, pair, start);
            JarAfter(next.ops) != map[] ==> WritingNow(next, |w.calls|)
  {
    var held := SessionOf(ready, pair, start);
    var next := DoAdopt(w, ready, pair, start);
    if Moves(w.held, held) {
      ForgetHeld(w, next);
    } else if held.Some? && WritesCookie(held.value) {
      WriteHeld(w, next);
    } else if held.Some? && w.held.Some? {
      ForgetHeld(w, next);
    }
  }

  lemma HoldKeepsOps(w: World, ready: Option<Ready>, start: Option<Start>)
    requires OpsInv(w) && Welcome(HoldForShell(ready, start))
    ensures var next := DoHoldForShell(w, ready, start); OpsInv(next) && JarAfter(next.ops) == map[]
  {
    if w.held.Some? {
      ForgetHeld(w, DoHoldForShell(w, ready, start));
    }
  }

  lemma WithholdKeepsOps(w: World, retire: bool)
    requires OpsInv(w)
    ensures var next := DoWithhold(w, retire); OpsInv(next) && JarAfter(next.ops) == map[]
  {
    if w.held.Some? {
      ForgetHeld(w, DoWithhold(w, retire));
    }
  }

  lemma ReleaseKeepsOps(w: World)
    requires OpsInv(w)
    ensures var next := DoRelease(w); OpsInv(next) && JarAfter(next.ops) == map[]
  {
    if w.held.Some? {
      ForgetHeld(w, DoRelease(w));
    }
  }

  lemma LiftKeepsOps(w: World, expected: nat, unretire: bool, start: Option<Start>)
    requires OpsInv(w)
    ensures var next := DoLift(w, expected, unretire, start);
            OpsInv(next) && (next.ops == w.ops || WritingNow(next, |w.calls|))
  {
    var next := DoLift(w, expected, unretire, start);
    if next.ops != w.ops {
      WriteHeld(w, next);
    }
  }

  lemma EndKeepsOps(w: World, stamp: Stamp, defect: bool, retiredToo: bool)
    requires OpsInv(w)
    ensures var next := DoEnd(w, stamp, defect, retiredToo);
            OpsInv(next) && (next.ops == w.ops || JarAfter(next.ops) == map[])
  {
    var next := DoEnd(w, stamp, defect, retiredToo);
    if next.ops != w.ops {
      ForgetHeld(w, next);
    }
  }

  /** `adopt` going on after the session it replaced has left the jar. */
  lemma AdoptOnKeepsOps(w: World, mine: nat, previous: Session, ready: Option<Ready>)
    requires OpsInv(w)
    ensures var (next, call) := AdoptOn(w, mine, Some(previous), ready);
            && OpsInv(next)
            && (next.ops == w.ops || JarAfter(next.ops) == map[] || IsWrite(call, next.gen))
  {
    var (next, call) := AdoptOn(w, mine, Some(previous), ready);
    if next.ops != w.ops {
      if WritesCookie(w.held.value) {
        WriteHeld(w, next);
      } else {
        ForgetHeld(w, next);
      }
    }
  }

  /** A write that saw the generation move takes out only a cookie nothing holds. */
  lemma SettleKeepsOps(w: World, session: Session)
    requires OpsInv(w) && MustSettle(w, session)
    ensures var next := Issue(w, Remove(session.port)); OpsInv(next) && JarAfter(next.ops) == JarAfter(w.ops)
  {
    ForgetStray(w, Issue(w, Remove(session.port)), session.port);
  }

  /** A suspended call that goes on writes nothing but the held session's own cookie. */
  lemma GoOnKeepsOps(w: World, call: Call, ok: bool)
    requires OpsInv(w)
    ensures var (next, after) := GoOn(w, call, ok);
            && OpsInv(next)
            && (JarAfter(next.ops) == JarAfter(w.ops) || JarAfter(next.ops) == map[] || IsWrite(after, next.gen))
  {
    match call
    case AdoptLeaving(mine, previous, ready, _) => AdoptOnKeepsOps(w, mine, previous, ready);
    case AdoptWriting(_, session, _, _) => if MustSettle(w, session) { SettleKeepsOps(w, session); }
    case LiftWriting(_, session, _) => if MustSettle(w, session) { SettleKeepsOps(w, session); }
    case _ =>
  }

  lemma StepKeepsOps(w: World, event: Event)
    requires OpsInv(w) && Welcome(event)
    ensures OpsInv(Step(w, event))
  {
    match event
    case Adopt(ready, pair, start) => AdoptKeepsOps(w, ready, pair, start);
    case HoldForShell(ready, start) => HoldKeepsOps(w, ready, start);
    case Withhold(retire) => WithholdKeepsOps(w, retire);
    case Lift(expected, unretire, start) => LiftKeepsOps(w, expected, unretire, start);
    case End(stamp, defect, retiredToo) => EndKeepsOps(w, stamp, defect, retiredToo);
    case Release => ReleaseKeepsOps(w);
    case Resume(i) => if CanGoOn(w, i) { GoOnKeepsOps(w, w.calls[i], w.landed[w.calls[i].op]); }
    case _ =>
  }

  /** One more call of this generation leaves every awaited write where it was. */
  lemma SuspendKeepsWrites(w: World, next: World)
    requires NoneAhead(w) && w.gen <= next.gen
    requires |next.calls| == |w.calls| + 1 && next.calls[..|w.calls|] == w.calls
    requires StampedBy(next.calls[|w.calls|], next.gen)
    ensures NoneAhead(next)
    ensures next.gen == w.gen && SomeWriting(w) ==> SomeWriting(next)
  {
    forall j | 0 <= j < |next.calls| ensures StampedBy(next.calls[j], next.gen) {
      if j < |w.calls| {
        assert next.calls[j] == w.calls[j];
      }
    }
    if next.gen == w.gen && SomeWriting(w) {
      var j: nat :| WritingNow(w, j);
      assert next.calls[j] == w.calls[j];
      assert WritingNow(next, j);
    }
  }

  /** What a call going on makes of the write it awaited: lifted the withhold, or was of another generation. */
  lemma GoOnSettlesWrite(w: World, call: Call)
    requires StampedBy(call, w.gen) 
    ensures var (next, after) := GoOn(w, call, true);
            && next.gen == w.gen && StampedBy(after, next.gen) && next.calls == w.calls
            && (IsWrite(call, w.gen) ==> !next.withheld)
            && (next.withheld && !w.withheld ==> next.held.Some? && !WritesCookie(next.held.value))
  {
  }

  lemma GoOnKeepsWrites(w: World, i: nat)
    requires OpsInv(w) && AwaitsInv(w) && CanGoOn(w, i)
    ensures AwaitsInv(DoResume(w, i))
  {
    var call := w.calls[i];
    var (w1, after) := GoOn(w, call, true);
    var next := DoResume(w, i);
    assert next == w1.(calls := w.calls[i := after]);
    GoOnKeepsOps(w, call, true);
    GoOnSettlesWrite(w, call);
    if next.withheld && JarAfter(next.ops) != map[] {
      if IsWrite(after, next.gen) {
        assert WritingNow(next, i);
      } else {
        assert JarAfter(w.ops) != map[] && w.withheld;
        var j: nat :| WritingNow(w, j);
        assert j != i;
        assert WritingNow(next, j);
      }
    }
  }

  lemma MoveKeepsWrites(w: World, event: Event)
    requires OpsInv(w) && AwaitsInv(w) && Welcome(event)
    requires event.Adopt? || event.HoldForShell? || event.Withhold? || event.Release?
    ensures AwaitsInv(Step(w, event))
  {
    var next := Step(w, event);
    SuspendKeepsWrites(w, next);
    match event
    case Adopt(ready, pair, start) => AdoptKeepsOps(w, ready, pair, start);
    case HoldForShell(ready, start) => HoldKeepsOps(w, ready, start);
    case Withhold(retire) => WithholdKeepsOps(w, retire);
    case Release => ReleaseKeepsOps(w);
  }

  lemma LiftKeepsWrites(w: World, expected: nat, unretire: bool, start: Option<Start>)
    requires OpsInv(w) && AwaitsInv(w)
    ensures AwaitsInv(DoLift(w, expected, unretire, start))
  {
    var next := DoLift(w, expected, unretire, start);
    SuspendKeepsWrites(w, next);
    LiftKeepsOps(w, expected, unretire, start);
  }

  lemma EndKeepsWrites(w: World, stamp: Stamp, defect: bool, retiredToo: bool)
    requires OpsInv(w) && AwaitsInv(w)
    ensures AwaitsInv(DoEnd(w, stamp, defect, retiredToo))
  {
    var next := DoEnd(w, stamp, defect, retiredToo);
    SuspendKeepsWrites(w, next);
    EndKeepsOps(w, stamp, defect, retiredToo);
  }

  /** The events that make no call and go on with none. */
  lemma AsideKeepsWrites(w: World, event: Event)
    requires AwaitsInv(w)
    requires event.RetireOrigin? || event.SetPaired? || event.CookieChanged? || event.Lands?
    ensures AwaitsInv(Step(w, event))
  {
    var next := Step(w, event);
    assert next.calls == w.calls && next.ops == w.ops && next.gen == w.gen && next.withheld == w.withheld;
    if SomeWriting(w) {
      var j: nat :| WritingNow(w, j);
      assert WritingNow(next, j);
    }
  }

  lemma StepKeepsAwaits(w: World, event: Event)
    requires OpsInv(w) && AwaitsInv(w) && Welcome(event)
    ensures AwaitsInv(Step(w, event))
  {
    match event
    case Lift(expected, unretire, start) => LiftKeepsWrites(w, expected, unretire, start);
    case End(stamp, defect, retiredToo) => EndKeepsWrites(w, stamp, defect, retiredToo);
    case Resume(i) => if CanGoOn(w, i) { GoOnKeepsWrites(w, i); }
    case Adopt(_, _, _) => MoveKeepsWrites(w, event);
    case HoldForShell(_, _) => MoveKeepsWrites(w, event);
    case Withhold(_) => MoveKeepsWrites(w, event);
    case Release => MoveKeepsWrites(w, event);
    case _ => AsideKeepsWrites(w, event);
  }

  /** A call going on writes the session held then, at its own generation. */
  lemma GoOnWritesHeld(w: World, call: Call, ok: bool)
    requires WritesHeld(call, w.gen, w.held)
    ensures var (next, after) := GoOn(w, call, ok); WritesHeld(after, next.gen, next.held) && next.gen == w.gen && next.held == w.held
  {
  }

  lemma AdoptWritesHeld(w: World, ready: Option<Ready>, pair: Option<string>, start: Option<Start>)
    ensures var next := DoAdopt(w, ready, pair, start); WritesHeld(next.calls[|w.calls|], next.gen, next.held)
  {
  }

  lemma LiftWritesHeld(w: World, expected: nat, unretire: bool, start: Option<Start>)
    ensures var next := DoLift(w, expected, unretire, start); WritesHeld(next.calls[|w.calls|], next.gen, next.held)
  {
  }

  lemma NewCallWritesHeld(w: World, event: Event)
    requires |w.calls| < |Step(w, event).calls|
    ensures var next := Step(w, event); WritesHeld(next.calls[|w.calls|], next.gen, next.held)
  {
    if event.Adopt? {
      AdoptWritesHeld(w, event.ready, event.pair, event.start);
    } else if event.Lift? {
      LiftWritesHeld(w, event.expected, event.unretire, event.start);
    }
    hide DoAdopt, DoLift, GoOn;
  }

  /** Beside a sign-in, a hold, a loss or a release, the held session's cookie stays the same. */
  lemma CookieStays(w: World, event: Event)
    ensures var next := Step(w, event);
            && (next.gen == w.gen || next.gen == w.gen + 1)
            && (next.gen == w.gen ==>
                  && next.held.Some? == w.held.Some?
                  && (w.held.Some? ==> next.held.value.port == w.held.value.port && next.held.value.token == w.held.value.token))
            && |w.calls| <= |next.calls| <= |w.calls| + 1
            && (forall i | 0 <= i < |w.calls| && event != Resume(i) :: next.calls[i] == w.calls[i])
  {
    if event.Resume? && CanGoOn(w, event.call) {
      var call := w.calls[event.call];
      assert GoOn(w, call, w.landed[call.op]).0.held == w.held && GoOn(w, call, w.landed[call.op]).0.gen == w.gen;
    }
    hide GoOn;
  }

  lemma StepKeepsHeld(w: World, event: Event)
    requires NoneAhead(w) && AllWriteHeld(w)
    ensures AllWriteHeld(Step(w, event))
  {
    var next := Step(w, event);
    CookieStays(w, event);
    forall i | 0 <= i < |next.calls| ensures WritesHeld(next.calls[i], next.gen, next.held) {
      if i == |w.calls| {
        NewCallWritesHeld(w, event);
      } else {
        assert WritesHeld(w.calls[i], w.gen, w.held) && StampedBy(w.calls[i], w.gen);
        if event == Resume(i) && CanGoOn(w, i) {
          GoOnWritesHeld(w, w.calls[i], w.landed[w.calls[i].op]);
          hide GoOn;
        } else {
          hide Step;
        }
      }
    }
  }

  lemma StepKeepsWrites(w: World, event: Event)
    requires OpsInv(w) && WritesInv(w) && Welcome(event)
    ensures WritesInv(Step(w, event))
  {
    hide Step, OpsInv, NoneAhead, AllWriteHeld;
    StepKeepsAwaits(w, event);
    StepKeepsHeld(w, event);
  }

  lemma {:induction false} RunKeepsJar(events: seq<Event>, n: nat)
    requires n <= |events| && AllWelcome(events)
    ensures OpsInv(At(events, n)) && WritesInv(At(events, n))
  {
    if n > 0 {
      RunKeepsJar(events, n - 1);
      StepKeepsOps(At(events, n - 1), events[n - 1]);
      StepKeepsWrites(At(events, n - 1), events[n - 1]);
    }
  }

  lemma {:induction false} PrefixNeverTwo(ops: seq<Op>, n: nat)
    requires NeverTwo(ops) && n <= |ops|
    ensures NeverTwo(ops[..n])
  {
    if n == |ops| {
      assert ops[..n] == ops;
    } else {
      PrefixNeverTwo(ops[..|ops| - 1], n);
      assert ops[..|ops| - 1][..n] == ops[..n];
    }
  }

  lemma AtMostOneCounts(jar: Jar)
    requires AtMostOne(jar)
    ensures |jar| <= 1
  {
    if exists p :: p in jar {
      var p :| p in jar;
      assert forall q | q in jar.Keys :: q == p;
      assert jar.Keys == {p};
    } else {
      assert jar.Keys == {};
    }
  }

  /** With no failure, the jar is what the landed prefix of the operations makes. */
  lemma {:induction false} JarIsPrefix(ops: seq<Op>, landed: seq<bool>)
    requires |landed| <= |ops|
    requires forall i | 0 <= i < |landed| :: landed[i]
    ensures JarOf(ops, landed) == JarAfter(ops[..|landed|])
  {
    if landed != [] {
      var n := |landed| - 1;
      JarIsPrefix(ops, landed[..n]);
      assert ops[..|landed|][..n] == ops[..n];
    }
  }

  /** No operation the store still owes is on the cookie of *port*. */
  predicate NoneOwed(w: World, port: int) {
    forall i | |w.landed| <= i < |w.ops| :: w.ops[i].port != port
  }

  /** Operations on other cookies leave one as it was. */
  lemma {:induction false} OthersLeave(ops: seq<Op>, n: nat, port: int)
    requires n <= |ops| && forall i | n <= i < |ops| :: ops[i].port != port
    ensures port in JarAfter(ops) <==> port in JarAfter(ops[..n])
    ensures port in JarAfter(ops) ==> JarAfter(ops)[port] == JarAfter(ops[..n])[port]
  {
    if n == |ops| {
      assert ops[..n] == ops;
    } else {
      var front := ops[..|ops| - 1];
      OthersLeave(front, n, port);
      assert front[..n] == ops[..n];
    }
  }

  /** The jar's safety, over every run and whatever the store still owes: never two window cookies; and a
      cookie nothing outstanding is on is the held session's own, under its name and with its token (never
      the shell's own hold, never a session without its pair at a gateway with the door), and while the
      windows are withheld a call awaits a write of it begun at the current generation. So every other
      cookie in the jar has a later operation on it already issued. */
  lemma JarIsSafe(events: seq<Event>, n: nat, port: int)
    requires n <= |events| && AllWelcome(events)
    ensures var w := At(events, n);
            && |w.landed| <= |w.ops|
            && |JarNow(w)| <= 1
            && (port in JarNow(w) && NoneOwed(w, port) ==>
                  && w.held.Some? && WritesCookie(w.held.value)
                  && port == w.held.value.port && JarNow(w)[port] == w.held.value.token
                  && (w.withheld ==> exists i: nat :: WritingNow(w, i) && SameCookie(w.calls[i].session, w.held)))
  {
    RunKeepsJar(events, n);
    var w := At(events, n);
    hide At;
    JarIsPrefix(w.ops, w.landed);
    PrefixNeverTwo(w.ops, |w.landed|);
    AtMostOneCounts(JarNow(w));
    if port in JarNow(w) && NoneOwed(w, port) {
      OthersLeave(w.ops, |w.landed|, port);
      if w.withheld {
        var i: nat :| WritingNow(w, i);
        assert WritesHeld(w.calls[i], w.gen, w.held);
      }
    }
  }

  /** Once the store owes nothing, the whole jar is safe: it is empty, or the held session's own cookie. */
  lemma JarIsSafeOnceLanded(events: seq<Event>, n: nat)
    requires n <= |events| && AllWelcome(events) && |At(events, n).landed| == |At(events, n).ops|
    ensures var w := At(events, n);
            && OwnCookieOnly(JarNow(w), w.held)
            && (w.withheld && (forall i: nat :: !WritingNow(w, i)) ==> JarNow(w) == map[])
  {
    RunKeepsJar(events, n);
    var w := At(events, n);
    JarIsPrefix(w.ops, w.landed);
    assert w.ops[..|w.ops|] == w.ops;
  }

  /** Between a call and its operation landing the jar can still hold the replaced session's cookie:
      here a restart moved the held session to a new port and the store has not yet applied the
      removal, which is the outstanding operation `JarIsSafe` says there is. */
  lemma JarLagsTheStore()
    ensures var events := [
              Adopt(Some(Ready(8001, "first", false)), None, None), Lands(true), Resume(0),
              Adopt(Some(Ready(8002, "second", false)), None, None)];
            var w := At(events, 4);
            && AllWelcome(events) && |w.landed| <= |w.ops|
            && JarNow(w) == map[8001 := "first"]
            && w.held.Some? && w.held.value.port == 8002
            && !OwnCookieOnly(JarNow(w), w.held) && !NoneOwed(w, 8001)
  {
    var events := [
      Adopt(Some(Ready(8001, "first", false)), None, None), Lands(true), Resume(0),
      Adopt(Some(Ready(8002, "second", false)), None, None)];
    LagsAfterTwoAdopts(events);
    var w := At(events, 4);
    hide At;
    LandedJar(w);
    assert 8001 in JarNow(w);
    assert w.ops[1].port == 8001;
  }

  lemma LagsAfterTwoAdopts(events: seq<Event>)
    requires events == [
               Adopt(Some(Ready(8001, "first", false)), None, None), Lands(true), Resume(0),
               Adopt(Some(Ready(8002, "second", false)), None, None)]
    ensures var w := At(events, 4);
            w.ops == [Write(8001, "first"), Remove(8001)] && w.landed == [true] && w.held.Some? && w.held.value.port == 8002
  {
    var w1 := Step(Init, events[0]);
    assert At(events, 0) == Init && At(events, 1) == w1;
    assert w1.ops == [Write(8001, "first")] && w1.landed == [];
    var w2 := Step(w1, events[1]);
    assert At(events, 2) == w2 && w2.landed == [true];
    var w3 := Step(w2, events[2]);
    assert At(events, 3) == w3 && w3.held == w1.held && w3.ops == w1.ops && w3.landed == [true];
    assert At(events, 4) == Step(w3, events[3]);
  }

  lemma LandedJar(w: World)
    requires w.ops == [Write(8001, "first"), Remove(8001)] && w.landed == [true]
    ensures JarNow(w) == map[8001 := "first"]
  {
    assert w.landed[..0] == [];
    assert JarOf(w.ops, []) == map[];
    assert Apply(map[], Write(8001, "first")) == map[8001 := "first"];
  }
}
