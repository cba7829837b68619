/**
 * The watch and the sign-in joined (desktop/main.js, loseGateway, takeBackAdoptedGateway and the watch's
 * *proven*): a loss withholds both, and what a look proves brings the windows back by a lift of the
 * sign-in as it was at the last loss, or by a new sign-in.
 *
 * A state is the two machines', the generation of the last loss, and where the take-back stands. Each
 * event is one event of each machine; the joined run is a run of both, so all that is proved of either
 * holds here too. Every sign-in, End and withhold for good may come in between.
 */
module Recovery {
  import opened Options
  import S = SignIn
  import L = SignInLoss
  import J = SignInJar
  import B = SignInBack
  import G = GatewayWatch
  import T = WatchTakesBack
  import WindowTraffic

  /** Where a take-back stands: reading the held session at the proven port, awaiting its lift, or
      signing in to a new start. */
  datatype Back = NoBack | Reading(proof: G.Start) | Lifting(call: nat) | Afresh

  datatype State = State(sign: S.World, watch: G.State, lostAt: nat, back: Back)

  const Init := State(S.Init, G.Init, 0, NoBack)

  datatype Event =
    | Loses
    | Reached(found: Option<G.Start>, after: Option<G.Record>, sameDoor: bool)
    | HeldRead(ended: bool)
    | LiftEnds
    | AfreshEnds(ok: bool)
    | SignEvent(sign: S.Event)
    | WatchEvent(watch: G.Event)

  function StartOf(start: G.Start): S.Start {
    S.Start(start.pid, start.port, start.digest)
  }

  /** A loss that moves the sign-in: any but one it is withheld for already. */
  predicate LossWithholds(s: State) {
    s.watch.watched.Some? && !(s.watch.withheld && s.sign.withheld && s.lostAt == s.sign.gen)
  }

  /** An event of the watch that does nothing now. */
  function NoWatch(s: State): G.Event {
    if s.watch.look.Following? then G.Proved(false, false) else G.Followed(false)
  }

  /** One of the sign-in that never does anything. */
  const NO_SIGN: S.Event := S.RetireOrigin(None)

  /** Whether a lift is back, and with what. */
  function LiftAnswer(s: State): Option<bool> {
    if s.back.Lifting? && s.back.call < |s.sign.calls| && s.sign.calls[s.back.call].Returned? && s.sign.calls[s.back.call].result.Lifted?
    then Some(s.sign.calls[s.back.call].result.lifted) else None
  }

  function WatchOf(s: State, event: Event): G.Event {
    match event
    case Loses => G.Lost
    case Reached(found, after, _) => G.Reached(found, after)
    case HeldRead(ended) => if s.back.Reading? && ended then G.Proved(false, false) else NoWatch(s)
    case LiftEnds => if LiftAnswer(s).Some? then G.Proved(LiftAnswer(s).value, false) else NoWatch(s)
    case AfreshEnds(ok) => if s.back.Afresh? then G.Proved(ok, false) else NoWatch(s)
    case SignEvent(_) => NoWatch(s)
    case WatchEvent(e) => if e.Lost? || e.Reached? || e.Proved? then NoWatch(s) else e
  }

  /** Whether a look proves the gateway with this answer. */
  predicate Proves(s: State, event: Event) {
    event.Reached? && !s.watch.look.Proving? && G.Step(s.watch, WatchOf(s, event)).look.Proving?
  }

  function ProvedLook(s: State, event: Event): (look: G.Look)
    requires Proves(s, event)
    ensures look.Proving?
  {
    G.Step(s.watch, WatchOf(s, event)).look
  }

  /** The lift a take-back makes of *proof*, as at the last loss. */
  function LiftOf(s: State, unretire: bool, proof: G.Start): S.Event {
    S.Lift(s.lostAt, unretire, Some(StartOf(proof)))
  }

  function SignOf(s: State, event: Event): S.Event {
    match event
    case Loses => if LossWithholds(s) then S.Withhold(s.watch.watched.value.kind.Adopted?) else NO_SIGN
    case Reached(_, _, _) =>
      if Proves(s, event) && ProvedLook(s, event).was.kind.Own? then LiftOf(s, false, ProvedLook(s, event).proof) else NO_SIGN
    case HeldRead(ended) => if s.back.Reading? && !ended then LiftOf(s, true, s.back.proof) else NO_SIGN
    case SignEvent(e) => if e.Lift? then NO_SIGN else e
    case _ => NO_SIGN
  }

  function BackOf(s: State, event: Event): Back {
    match event
    case Reached(_, _, sameDoor) =>
      if !Proves(s, event) then s.back
      else
        var look := ProvedLook(s, event);
        if look.was.kind.Own? then Lifting(|s.sign.calls|)
        else if look.proof == look.was.start && look.proof.digest != "" && sameDoor then Reading(look.proof)
        else Afresh
    case HeldRead(ended) => if !s.back.Reading? then s.back else if ended then NoBack else Lifting(|s.sign.calls|)
    case LiftEnds => if LiftAnswer(s).Some? then NoBack else s.back
    case AfreshEnds(_) => if s.back.Afresh? then NoBack else s.back
    case _ => s.back
  }

  function Step(s: State, event: Event): State {
    var sign := S.Step(s.sign, SignOf(s, event));
    State(sign, G.Step(s.watch, WatchOf(s, event)),
          if event.Loses? && LossWithholds(s) then sign.gen else s.lostAt, BackOf(s, event))
  }

  function At(events: seq<Event>, n: nat): State
    requires n <= |events|
  {
    if n == 0 then Init else Step(At(events, n - 1), events[n - 1])
  }

  // ── A joined run is a run of each machine ──

  function SignEvents(events: seq<Event>): (signs: seq<S.Event>)
    ensures |signs| == |events|
  {
    seq(|events|, i requires 0 <= i < |events| => SignOf(At(events, i), events[i]))
  }

  function WatchEvents(events: seq<Event>): (watches: seq<G.Event>)
    ensures |watches| == |events|
  {
    seq(|events|, i requires 0 <= i < |events| => WatchOf(At(events, i), events[i]))
  }

  lemma {:induction false} RunsBoth(events: seq<Event>, n: nat)
    requires n <= |events|
    ensures At(events, n).sign == S.At(SignEvents(events), n)
    ensures At(events, n).watch == G.At(WatchEvents(events), n)
  {
    hide SignOf, WatchOf, BackOf, LossWithholds, S.Step, G.Step;
    if n > 0 {
      RunsBoth(events, n - 1);
      assert SignEvents(events)[n - 1] == SignOf(At(events, n - 1), events[n - 1]);
      assert WatchEvents(events)[n - 1] == WatchOf(At(events, n - 1), events[n - 1]);
    }
  }

  /** So a joined run never stops looking. */
  lemma NeverStopsLooking(events: seq<Event>, n: nat)
    requires n <= |events|
    ensures var w := At(events, n).watch;
            w.watched.Some? && (w.withheld || w.ended.Some?) && !G.Rests(w) ==> w.timer || !w.look.Idle?
  {
    RunsBoth(events, n);
    G.NeverStopsLooking(WatchEvents(events), n);
  }

  // ── The loss a lift is of ──

  /** Event *j* is the loss the sign-in's generation stands at: nothing moved it since, up to *n*. */
  predicate LastLoss(events: seq<Event>, j: nat, n: nat)
    requires n <= |events|
  {
    && j < n && events[j].Loses? && LossWithholds(At(events, j))
    && forall i | j < i < n :: !L.Moves(SignEvents(events)[i])
  }

  lemma {:induction false} LostAtIsTheLastLoss(events: seq<Event>, n: nat) returns (j: nat)
    requires n <= |events|
    ensures At(events, n).lostAt <= At(events, n).sign.gen
    ensures At(events, n).lostAt == At(events, n).sign.gen > 0 ==> LastLoss(events, j, n)
  {
    hide Step, SignOf, LossWithholds, L.Moves;
    j := 0;
    if n > 0 {
      var before, event := At(events, n - 1), events[n - 1];
      j := LostAtIsTheLastLoss(events, n - 1);
      LossStep(before, event);
      assert SignEvents(events)[n - 1] == SignOf(before, event);
      if event.Loses? && LossWithholds(before) {
        j := n - 1;
      }
    }
  }

  lemma LossStep(s: State, event: Event)
    ensures var next, loss := Step(s, event), event.Loses? && LossWithholds(s);
            && next.sign.gen == s.sign.gen + (if L.Moves(SignOf(s, event)) then 1 else 0)
            && next.lostAt == (if loss then next.sign.gen else s.lostAt)
            && (loss ==> L.Moves(SignOf(s, event)))
  {
    L.StepGen(s.sign, SignOf(s, event));
    LossMoves(s, event);
    hide S.Step, G.Step, BackOf, WatchOf, SignOf, LossWithholds;
  }

  lemma LossMoves(s: State, event: Event)
    ensures event.Loses? && LossWithholds(s) ==> L.Moves(SignOf(s, event))
  {
  }

  // ── The proof a lift is of ──

  /** Event *k* proved *proof*, for the gateway *was*. */
  predicate ProofAt(events: seq<Event>, k: nat, was: G.Watched, proof: G.Start)
    requires k < |events|
  {
    && Proves(At(events, k), events[k])
    && ProvedLook(At(events, k), events[k]).was == was && ProvedLook(At(events, k), events[k]).proof == proof
  }

  /** And a proof is what it says: of the gateway watched then, by what was found, for a start not ended
      then; for the app's own, of its very start, with the record read after it still naming it. */
  lemma ProofIsOne(s: State, event: Event)
    requires Proves(s, event)
    ensures G.TakenAt(s.watch, G.Reached(event.found, event.after), ProvedLook(s, event))
  {
    G.ProvesOnly(s.watch, WatchOf(s, event));
  }

  /** A take-back that reads the held session is of a found gateway's same start, proven at event *k*. */
  lemma {:induction false} ReadingSince(events: seq<Event>, n: nat) returns (k: nat, was: G.Watched)
    requires n <= |events| && At(events, n).back.Reading?
    ensures k < n && ProofAt(events, k, was, At(events, n).back.proof) && events[k].Reached?
    ensures was.kind.Adopted? && was.start == At(events, n).back.proof
  {
    hide SignOf, Proves;
    var before := At(events, n - 1);
    if before.back == At(events, n).back {
      k, was := ReadingSince(events, n - 1);
    } else {
      k, was := n - 1, ProvedLook(before, events[n - 1]).was;
    }
  }

  /** Which proof the lift made at event *m* is of. */
  lemma LiftIsOfAProof(events: seq<Event>, m: nat) returns (k: nat, was: G.Watched, proof: G.Start)
    requires m < |events| && SignEvents(events)[m].Lift?
    ensures k <= m && ProofAt(events, k, was, proof) && events[k].Reached?
    ensures SignEvents(events)[m] == LiftOf(At(events, m), was.kind.Adopted?, proof)
    ensures was.kind.Own? <==> k == m
    ensures was.kind.Adopted? ==> proof == was.start
  {
    var s := At(events, m);
    assert SignEvents(events)[m] == SignOf(s, events[m]);
    hide At, Proves;
    if events[m].Reached? {
      k, was, proof := m, ProvedLook(s, events[m]).was, ProvedLook(s, events[m]).proof;
    } else {
      k, was := ReadingSince(events, m);
      proof := s.back.proof;
    }
  }

  // ── How the windows come back ──

  lemma LiftIsTaken(w: S.World, event: S.Event)
    requires event.Lift?
    requires (w.withheld && !S.Step(w, event).withheld) || !S.Step(w, event).calls[|w.calls|].Returned?
    ensures w.held.Some? && S.FromStart(w.held.value, event.start) && event.expected == w.gen
  {
  }

  /** Before the generation ever moves, nothing is held, nothing withheld, and no call is out. */
  predicate Untouched(w: S.World) {
    !w.withheld && w.held.None? && forall i | 0 <= i < |w.calls| :: w.calls[i].Returned?
  }

  lemma StaysUntouched(w: S.World, event: S.Event)
    requires Untouched(w) && S.Step(w, event).gen == w.gen
    ensures Untouched(S.Step(w, event))
  {
  }

  lemma {:induction false} WithheldHasMoved(events: seq<S.Event>, n: nat)
    requires n <= |events|
    ensures S.At(events, n).gen == 0 ==> Untouched(S.At(events, n))
  {
    if n > 0 {
      WithheldHasMoved(events, n - 1);
      L.StepGen(S.At(events, n - 1), events[n - 1]);
      hide S.Step, Untouched;
      if S.At(events, n).gen == 0 {
        StaysUntouched(S.At(events, n - 1), events[n - 1]);
      }
    }
  }

  /** The lift of call *m* that brings the windows back was of the very session held, at the generation
      it found. */
  lemma LiftWasTaken(events: seq<S.Event>, m: nat, n: nat)
    requires m <= n < |events| && events[m].Lift?
    requires S.At(events, n).withheld && !S.At(events, n + 1).withheld
    requires m == n || events[n] == S.Resume(|S.At(events, m).calls|)
    ensures var w := S.At(events, m);
            w.held.Some? && S.FromStart(w.held.value, events[m].start) && events[m].expected == w.gen
  {
    hide S.Step;
    var w := S.At(events, m);
    assert S.At(events, m + 1) == S.Step(w, events[m]);
    assert S.At(events, n + 1) == S.Step(S.At(events, n), events[n]);
    L.StepCalls(w, events[m]);
    if m < n {
      L.LiftingIsOut(S.At(events, n), events[n]);
      LiftSuspends(w, events[m]);
      if S.At(events, m + 1).calls[|w.calls|].Returned? {
        L.StaysReturned(events, m + 1, n, |w.calls|);
      }
    }
    LiftIsTaken(w, events[m]);
  }

  lemma LiftSuspends(w: S.World, event: S.Event)
    requires event.Lift?
    ensures |S.Step(w, event).calls| == |w.calls| + 1
  {
  }

  /** How the windows come back, over every run of the two machines: by a sign-in, or by a lift made at
      event *m* of what a look proved at an event *k* before it (at *m* itself for the app's own gateway):
      the very start the held session came from, at the generation of the last loss *j*; and no sign-in,
      hold, loss or release came after the lift was made. The proof was taken after that loss exactly when
      the sign-in's generation had not moved since the proof, which the app's own gateway's never has. */
  lemma WindowsComeBackOnProof(events: seq<Event>, n: nat)
    returns (m: nat, j: nat, k: nat, was: G.Watched, proof: G.Start)
    requires n < |events| && At(events, n).sign.withheld && !At(events, n + 1).sign.withheld
    ensures m <= n && forall i | m < i <= n :: !L.Moves(SignEvents(events)[i])
    ensures SignEvents(events)[m].Adopt? || SignEvents(events)[m] == LiftOf(At(events, m), was.kind.Adopted?, proof)
    ensures SignEvents(events)[m].Lift? ==>
              && k <= m && ProofAt(events, k, was, proof)
              && (was.kind.Own? <==> k == m) && (was.kind.Adopted? ==> proof == was.start)
              && At(events, m).sign.held.Some? && S.FromStart(At(events, m).sign.held.value, Some(StartOf(proof)))
              && At(events, m).lostAt == At(events, m).sign.gen && LastLoss(events, j, m)
              && (j < k <==> At(events, k).sign.gen == At(events, m).sign.gen)
  {
    hide Step, SignOf, WatchOf, Proves, BackOf, S.Step, G.Step;
    var signs := SignEvents(events);
    RunsBoth(events, n);
    RunsBoth(events, n + 1);
    m := L.LossWins(signs, n);
    RunsBoth(events, m);
    j, k, was, proof := 0, 0, G.Watched(0, G.Own, G.Start(0, 0, "")), G.Start(0, 0, "");
    if signs[m].Lift? {
      k, was, proof := LiftIsOfAProof(events, m);
      LiftWasTaken(signs, m, n);
      L.GenMoves(signs, m, n);
      WithheldHasMoved(signs, m);
      MovedByThen(events, m);
      j := LostAtIsTheLastLoss(events, m);
      ProofAfterLoss(events, j, k, m);
    }
  }

  lemma MovedByThen(events: seq<Event>, m: nat)
    requires m <= |events| && At(events, m).sign.held.Some? && (At(events, m).sign.gen == 0 ==> Untouched(At(events, m).sign))
    ensures At(events, m).sign.gen > 0
  {
  }

  /** A proof at *k* is after the loss at *j* exactly when the generation has not moved since it. */
  lemma ProofAfterLoss(events: seq<Event>, j: nat, k: nat, m: nat)
    requires j < m < |events| && k <= m && LastLoss(events, j, m) && events[k].Reached?
    ensures j < k <==> At(events, k).sign.gen == At(events, m).sign.gen
  {
    var signs := SignEvents(events);
    RunsBoth(events, k);
    RunsBoth(events, m);
    RunsBoth(events, j);
    L.GenMoves(signs, k, m);
    LossMoves(At(events, j), events[j]);
    hide Step, SignOf, WatchOf, S.Step, G.Step;
    assert signs[j] == SignOf(At(events, j), events[j]);
    if j < k {
      L.GenUnmoved(signs, k, m);
    }
  }

  // ── Both come back ──

  /** A lift is made exactly when a look proves the app's own gateway, or the one read for a found one's same
      start does not end the sign-in; a loss withholds the record exactly when it is not withheld for it. */
  lemma LiftsExactlyWhen(s: State, event: Event)
    ensures SignOf(s, event).Lift? <==>
              || (Proves(s, event) && ProvedLook(s, event).was.kind.Own?)
              || (s.back.Reading? && event == HeldRead(false))
    ensures SignOf(s, Loses).Withhold? <==>
              s.watch.watched.Some? && !(s.watch.withheld && s.sign.withheld && s.lostAt == s.sign.gen)
    ensures SignOf(s, Loses).Withhold? ==> SignOf(s, Loses).retire == s.watch.watched.value.kind.Adopted?
    ensures event.SignEvent? && !event.sign.Lift? ==> SignOf(s, event) == event.sign
  {
  }

  /** What a proof starts: a lift of the app's own gateway; for a found one the read with the held session, of
      the same start with its secret and the window's door as it was, or else a sign-in to the new start. */
  lemma ProofStarts(s: State, event: Event)
    requires Proves(s, event)
    ensures var look, next := ProvedLook(s, event), Step(s, event);
            match look.was.kind
            case Own => next.back == Lifting(|s.sign.calls|) && |next.sign.calls| == |s.sign.calls| + 1
            case Adopted =>
              if look.proof.pid == look.was.start.pid && look.proof.digest == look.was.start.digest && look.proof.digest != "" && event.sameDoor
              then next.back == Reading(look.proof) else next.back == Afresh
  {
    ProofIsOne(s, event);
    L.StepCalls(s.sign, SignOf(s, event));
    hide G.Step;
  }

  /** The watch's take-back ends exactly with its lift's answer, its sign-in's, or an ended sign-in; and it is told
      the windows' sign-in is back exactly by a lift that says so or by a sign-in to a new start that ended well. */
  lemma TakeBackEndsExactlyWhen(s: State, event: Event)
    requires s.watch.look.Proving?
    ensures G.Step(s.watch, WatchOf(s, event)).look.Idle? <==>
              || (event.LiftEnds? && LiftAnswer(s).Some?)
              || (event.AfreshEnds? && s.back.Afresh?)
              || (event == HeldRead(true) && s.back.Reading?)
    ensures WatchOf(s, event).Proved? && WatchOf(s, event).ok <==>
              || (event.LiftEnds? && LiftAnswer(s) == Some(true))
              || (event == AfreshEnds(true) && s.back.Afresh?)
  {
  }

  /** A lift that nothing overtakes brings both back, over every run of the two machines: its call back, with
      no sign-in, hold, loss or release since it was made and a session the jar takes held, the windows are in,
      and the take-back it answers leaves the gateway watched at the start proven with nothing withheld. */
  lemma LiftBringsBothBack(events: seq<Event>, m: nat, n: nat)
    requires m < n < |events| && J.AllWelcome(SignEvents(events)) && events[n] == LiftEnds
    requires B.LiftIsTaken(At(events, m).sign, SignEvents(events)[m])
    requires At(events, n).back == Lifting(|At(events, m).sign.calls|) && LiftAnswer(At(events, n)).Some?
    requires (forall i | m < i < n :: !L.Moves(SignEvents(events)[i])) && B.HoldsForJar(At(events, n).sign)
    requires At(events, n).watch.look.Proving? && At(events, n).watch.watched == Some(At(events, n).watch.look.was)
    ensures var s, next := At(events, n), At(events, n + 1);
            && !next.sign.withheld && !next.watch.withheld && next.watch.ended.None? && next.watch.look.Idle?
            && next.watch.watched.Some? && next.watch.watched.value.start == s.watch.look.proof
  {
    var signs, watches := SignEvents(events), WatchEvents(events);
    RunsBoth(events, m);
    RunsBoth(events, n);
    RunsBoth(events, n + 1);
    assert watches[n] == WatchOf(At(events, n), events[n]);
    assert signs[n] == SignOf(At(events, n), events[n]);
    hide At, SignEvents, WatchEvents, S.Step, G.Step, B.LiftIsTaken;
    B.SignInBringsWindowsBack(signs, m, n);
    T.TakeBackLeaves(watches, n);
    NothingDone(S.At(signs, n));
  }

  lemma NothingDone(w: S.World)
    ensures S.Step(w, NO_SIGN) == w
  {
  }

  // ── A proof older than the loss ──

  const START := G.Start(7, 8001, "digest")

  function SignsIn(token: string): S.Event {
    S.Adopt(Some(S.Ready(8001, token, true)), Some("pair"), Some(StartOf(START)))
  }

  function HeldAs(token: string): S.Session {
    S.Session(8001, token, Some("pair"), true, Some(StartOf(START)), false)
  }

  /** A new sign-in at a found gateway, and a loss after it, while a take-back reads the held session. */
  const OVERTAKEN: seq<Event> := [
    SignEvent(SignsIn("one")), WatchEvent(G.Adopt(START)), Loses, FIRES, REACHED,
    SignEvent(SignsIn("two")), WatchEvent(G.Adopt(START)), Loses,
    HeldRead(false),
    SignEvent(S.Lands(true)), SignEvent(S.Lands(true)), SignEvent(S.Lands(true)), SignEvent(S.Lands(true)),
    SignEvent(S.Lands(true)), SignEvent(S.Resume(4))]

  function Watched(id: nat): G.Watched {
    G.Watched(id, G.Adopted, START)
  }

  const AT_READING := State(
    S.World(Some(HeldAs("one")), true, 2, false, true, {WindowTraffic.LocalOrigin(8001)}, {},
            [S.Write(8001, "one"), S.Remove(8001)], [],
            [S.AdoptWriting(1, HeldAs("one"), None, 0), S.WithholdForgetting(2, 1)]),
    G.State(Some(Watched(0)), true, false, G.Proving(Watched(0), START, Watched(1)), None, 2, []), 2, Reading(START))

  const AT_REACHING := AT_READING.(
    watch := G.State(Some(Watched(0)), true, false, G.Reaching(Watched(0)), None, 1, []), back := NoBack)

  const AT_LOST := AT_REACHING.(watch := AT_REACHING.watch.(timer := true, look := G.Idle))

  lemma FirstLoss()
    ensures At(OVERTAKEN, 3) == AT_LOST
  {
    var w1 := S.World(Some(HeldAs("one")), false, 1, false, true, {}, {}, [S.Write(8001, "one")], [],
                      [S.AdoptWriting(1, HeldAs("one"), None, 0)]);
    assert At(OVERTAKEN, 0) == Init;
    var s1 := Init.(sign := w1);
    assert At(OVERTAKEN, 1) == s1;
    var s2 := s1.(watch := G.State(Some(Watched(0)), false, false, G.Idle, None, 1, []));
    assert At(OVERTAKEN, 2) == s2;
    assert At(OVERTAKEN, 3) == Step(s2, Loses);
  }

  const FIRES := WatchEvent(G.Fires(Some(G.Record(7, 8001, true)), true))
  const REACHED := Reached(Some(START), Some(G.Record(7, 8001, true)), true)

  lemma LookAfterALoss()
    ensures At(OVERTAKEN, 4) == AT_REACHING
  {
    FirstLoss();
    LookBegins();
    assert OVERTAKEN[3] == FIRES;
    hide OVERTAKEN, Step, AT_LOST, AT_REACHING, FIRES;
    assert At(OVERTAKEN, 4) == Step(At(OVERTAKEN, 3), OVERTAKEN[3]);
  }

  lemma ReadingAfterALoss()
    ensures At(OVERTAKEN, 5) == AT_READING
  {
    LookAfterALoss();
    ReadBegins();
    assert OVERTAKEN[4] == REACHED;
    hide OVERTAKEN, Step, AT_REACHING, AT_READING, REACHED;
    assert At(OVERTAKEN, 5) == Step(At(OVERTAKEN, 4), OVERTAKEN[4]);
  }

  lemma LookBegins()
    ensures Step(AT_LOST, FIRES) == AT_REACHING
  {
  }

  lemma ReadBegins()
    ensures Step(AT_REACHING, REACHED) == AT_READING
  {
  }

  /** A second session held since, and lost with a loss of its own. */
  const AT_SECOND_LOSS := State(
    S.World(Some(HeldAs("two")), true, 4, false, true, {WindowTraffic.LocalOrigin(8001)}, {},
            AT_READING.sign.ops + [S.Write(8001, "two"), S.Remove(8001)], [],
            AT_READING.sign.calls + [S.AdoptWriting(3, HeldAs("two"), Some(HeldAs("one")), 2), S.WithholdForgetting(4, 3)]),
    G.State(Some(Watched(2)), true, true, G.Proving(Watched(0), START, Watched(1)), None, 3, []), 4, Reading(START))

  /** The second session held, its write out, and the gateway taken anew. */
  const AT_SECOND := AT_READING.(
    sign := AT_READING.sign.(
      gen := 3, held := Some(HeldAs("two")), retired := {}, ops := AT_READING.sign.ops + [S.Write(8001, "two")],
      calls := AT_READING.sign.calls + [S.AdoptWriting(3, HeldAs("two"), Some(HeldAs("one")), 2)]),
    watch := AT_READING.watch.(watched := Some(Watched(2)), withheld := false, ids := 3, timer := false))

  lemma SecondSignIn()
    ensures Step(Step(AT_READING, SignEvent(SignsIn("two"))), WatchEvent(G.Adopt(START))) == AT_SECOND
  {
    assert S.Step(AT_READING.sign, SignsIn("two")) == AT_SECOND.sign;
  }

  lemma SecondLoss()
    ensures LossWithholds(AT_SECOND) && Step(AT_SECOND, Loses) == AT_SECOND_LOSS
  {
  }

  lemma LostAgainWhileReading()
    ensures At(OVERTAKEN, 7) == AT_SECOND && At(OVERTAKEN, 8) == AT_SECOND_LOSS
  {
    ReadingAfterALoss();
    SecondSignIn();
    SecondLoss();
    assert OVERTAKEN[5] == SignEvent(SignsIn("two")) && OVERTAKEN[6] == WatchEvent(G.Adopt(START)) && OVERTAKEN[7] == Loses;
    hide OVERTAKEN, Step, AT_SECOND, AT_READING, AT_SECOND_LOSS;
    assert At(OVERTAKEN, 6) == Step(At(OVERTAKEN, 5), OVERTAKEN[5]);
    assert At(OVERTAKEN, 7) == Step(At(OVERTAKEN, 6), OVERTAKEN[6]);
  }

  const LIFTING := AT_SECOND_LOSS.sign.(
    ops := AT_SECOND_LOSS.sign.ops + [S.Write(8001, "two")], retired := {},
    calls := AT_SECOND_LOSS.sign.calls + [S.LiftWriting(4, HeldAs("two"), 4)])

  lemma LiftedOnTheOlderProof()
    ensures var s := At(OVERTAKEN, 9); s.sign == LIFTING && s.watch == AT_SECOND_LOSS.watch && s.back == Lifting(4)
  {
    LostAgainWhileReading();
    LiftMade();
    assert OVERTAKEN[8] == HeldRead(false);
    hide OVERTAKEN, Step, AT_SECOND_LOSS, AT_SECOND;
    assert At(OVERTAKEN, 9) == Step(At(OVERTAKEN, 8), OVERTAKEN[8]);
  }

  lemma LiftMade()
    ensures var s := Step(AT_SECOND_LOSS, HeldRead(false));
            s.sign == LIFTING && s.watch == AT_SECOND_LOSS.watch && s.back == Lifting(4)
  {
  }

  lemma {:induction false} AllLand(n: nat)
    requires 9 <= n <= 14
    ensures At(OVERTAKEN, n).sign == LIFTING.(landed := seq(n - 9, _ => true))
  {
    if n == 9 {
      LiftedOnTheOlderProof();
      assert seq(0, _ => true) == [];
    } else {
      AllLand(n - 1);
      assert OVERTAKEN[n - 1] == SignEvent(S.Lands(true));
      assert seq(n - 10, _ => true) + [true] == seq(n - 9, _ => true);
    }
  }

  /** The code checks the generation of the last loss when the lift is made, not the one the proof was taken
      at. Here a new sign-in and a loss of it overtake the read of a found gateway's take-back: the windows
      come back on a proof older than the loss, and the watch, whose gateway is another by then, does not. */
  lemma ProofBeforeTheLoss()
    ensures var s := At(OVERTAKEN, 14);
            && s.sign.withheld && !At(OVERTAKEN, 15).sign.withheld && At(OVERTAKEN, 15).watch.withheld
            && LastLoss(OVERTAKEN, 7, 14) && ProofAt(OVERTAKEN, 4, Watched(0), START)
            && At(OVERTAKEN, 4).sign.gen != s.sign.gen
  {
    AllLand(14);
    TheWindowsComeBack();
    TheProofIsOlder();
  }

  lemma TheWindowsComeBack()
    requires At(OVERTAKEN, 14).sign == LIFTING.(landed := seq(5, _ => true))
    ensures !At(OVERTAKEN, 15).sign.withheld && At(OVERTAKEN, 15).watch.withheld
  {
    StillWatching(15);
    var w := At(OVERTAKEN, 14).sign;
    assert At(OVERTAKEN, 15).sign == S.Step(w, S.Resume(4));
    assert w.calls[4] == S.LiftWriting(4, HeldAs("two"), 4) && w.landed[4];
  }

  /** From the lift on only the sign-in's own events come, and the watch stays as it was. */
  lemma {:induction false} StillWatching(n: nat)
    requires 9 <= n <= 15
    ensures At(OVERTAKEN, n).watch == AT_SECOND_LOSS.watch
  {
    if n == 9 {
      LiftedOnTheOlderProof();
    } else {
      StillWatching(n - 1);
      assert OVERTAKEN[n - 1].SignEvent?;
      hide S.Step;
    }
  }

  lemma TheProofIsOlder()
    ensures LastLoss(OVERTAKEN, 7, 14) && ProofAt(OVERTAKEN, 4, Watched(0), START)
    ensures At(OVERTAKEN, 4).sign.gen == 2
  {
    LookAfterALoss();
    LostAgainWhileReading();
    SecondLoss();
    ProofOfReaching();
    NoMoveSince();
    assert AT_REACHING.sign.gen == 2;
    assert OVERTAKEN[4] == REACHED && OVERTAKEN[7] == Loses;
    hide OVERTAKEN, At, Step, AT_REACHING, AT_SECOND, LossWithholds, Proves, SignOf, REACHED;
  }

  lemma NoMoveSince()
    ensures forall i | 7 < i < 14 :: !L.Moves(SignEvents(OVERTAKEN)[i])
  {
    hide At, Step, SignOf;
    forall i | 7 < i < 14 ensures !L.Moves(SignEvents(OVERTAKEN)[i]) {
      assert OVERTAKEN[i] == HeldRead(false) || OVERTAKEN[i] == SignEvent(S.Lands(true));
      NoMove(At(OVERTAKEN, i), OVERTAKEN[i]);
    }
  }

  lemma NoMove(s: State, event: Event)
    requires event == HeldRead(false) || event == SignEvent(S.Lands(true))
    ensures !L.Moves(SignOf(s, event))
  {
  }

  lemma ProofOfReaching()
    ensures Proves(AT_REACHING, REACHED)
    ensures ProvedLook(AT_REACHING, REACHED).was == Watched(0) && ProvedLook(AT_REACHING, REACHED).proof == START
  {
  }
}
