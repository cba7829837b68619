/**
 * Following the gateway the app uses (desktop/gatewayWatch.js): the one it started (`Own`) and one
 * it found serving its home (`Adopted`). Once the doorbell lost its socket nothing carries the
 * home's credentials there until a look proves the gateway again.
 *
 * A look runs across three awaits (the proof's read, the follow, the take-back), so its place and
 * locals are part of the state. What the reads answer is the environment's: an event brings it.
 */
module GatewayWatch {
  import opened Options

  datatype Kind = Own | Adopted

  /** One start of a gateway: a proof names it, and the secret it was checked with. */
  datatype Start = Start(pid: int, port: int, digest: string)

  /** What is watched. *id* tells one object from another: the source compares them by reference. */
  datatype Watched = Watched(id: nat, kind: Kind, start: Start)

  /** The home's runtime record, as read, and whether its process is alive. */
  datatype Record = Record(pid: int, port: int, alive: bool)

  datatype Look =
    | Idle
    | Reaching(was: Watched)
    | Following(was: Watched)
    | Proving(was: Watched, proof: Start, following: Watched)

  datatype State = State(
    watched: Option<Watched>, withheld: bool, timer: bool, look: Look, ended: Option<Start>,
    ids: nat, gone: seq<Start>)

  const Init := State(None, false, false, Idle, None, 0, [])

  datatype Event =
    | Adopt(start: Start)
    | OwnStart(start: Start)
    | Drop
    | End
    | Lost
    | Fires(record: Option<Record>, pidAlive: bool)
    | Reached(found: Option<Start>, after: Option<Record>)
    | Followed(ok: bool)
    | Proved(ok: bool, lostInBack: bool)

  predicate IsEnded(s: State, start: Start) {
    s.ended == Some(start)
  }

  /** `again`: look once more in a while, while there is cause. */
  function Again(s: State): State {
    if s.watched.Some? && (s.withheld || s.ended.Some?) then s.(timer := true) else s
  }

  function Watch(s: State, kind: Kind, start: Start): State {
    s.(timer := false, watched := Some(Watched(s.ids, kind, start)), withheld := false, ended := None, ids := s.ids + 1)
  }

  /** A look ends, and looks again while there is cause. */
  function Done(s: State): State {
    Again(s.(look := Idle))
  }

  predicate Live(record: Option<Record>) {
    record.Some? && record.value.alive
  }

  /** `look`, up to its first await. */
  function DoFires(s0: State, record: Option<Record>, pidAlive: bool): State {
    var s := s0.(timer := false);
    if s.watched.None? || (!s.withheld && s.ended.None?) || !s.look.Idle? then s
    else
      var was := s.watched.value;
      if was.kind.Own? then
        if s.ended.Some? then s
        else if Live(record) && record.value.port == was.start.port && record.value.pid == was.start.pid then
          s.(look := Reaching(was))
        else Done(s)
      else if Live(record) && record.value.port != was.start.port then s.(look := Following(was))
      else if Live(record) then s.(look := Reaching(was))
      else if !pidAlive then Done(s.(watched := None, withheld := false, gone := s.gone + [was.start]))
      else Done(s)
  }

  /** Whether what *found* proves, and the record read after it, is the own start *was* again. */
  predicate SameStart(was: Watched, found: Option<Start>, after: Option<Record>) {
    && found == Some(was.start)
    && after.Some? && after.value.port == was.start.port && after.value.pid == was.start.pid
  }

  function DoReached(s: State, found: Option<Start>, after: Option<Record>): State {
    if !s.look.Reaching? then s
    else
      var was := s.look.was;
      if s.watched != Some(was) || found.None? || IsEnded(s, found.value) then Done(s)
      else if was.kind.Own? then
        if SameStart(was, found, after) then s.(look := Proving(was, found.value, was)) else Done(s)
      else if found.value.port == was.start.port then
        var following := Watched(s.ids, Adopted, Start(found.value.pid, was.start.port, found.value.digest));
        s.(look := Proving(was, found.value, following), ids := s.ids + 1)
      else Done(s)
  }

  function DoLost(s: State): State {
    if s.watched.None? then s else Again(s.(withheld := true))
  }

  /** `takeBack`, once the sign-in says whether it is back. A loss can come while *back* hands over. */
  function DoProved(s: State, ok: bool, lostInBack: bool): State {
    if !s.look.Proving? then s
    else if ok && s.watched == Some(s.look.was) then
      var back := s.(watched := Some(s.look.following), withheld := false, ended := None);
      Done(if lostInBack then DoLost(back) else back)
    else Done(s)
  }

  function Step(s: State, event: Event): State {
    match event
    case Adopt(start) => Watch(s, Adopted, start)
    case OwnStart(start) => Watch(s, Own, start)
    case Drop => s.(timer := false, watched := None, withheld := false, ended := None)
    case End => if s.watched.None? then s else Again(s.(ended := Some(s.watched.value.start)))
    case Lost => DoLost(s)
    case Fires(record, pidAlive) => if s.timer then DoFires(s, record, pidAlive) else s
    case Reached(found, after) => DoReached(s, found, after)
    case Followed(ok) => if s.look.Following? then Done(s) else s
    case Proved(ok, lostInBack) => DoProved(s, ok, lostInBack)
  }

  function At(events: seq<Event>, n: nat): State
    requires n <= |events|
  {
    if n == 0 then Init else Step(At(events, n - 1), events[n - 1])
  }

  // ── It always looks again ──

  /** An own start that was ended rests until its next ready line, its exit or a Sign In Again. */
  predicate Rests(s: State) {
    s.watched.Some? && s.watched.value.kind.Own? && s.ended.Some?
  }

  predicate LooksAgain(s: State) {
    s.watched.Some? && (s.withheld || s.ended.Some?) && !Rests(s) ==> s.timer || !s.look.Idle?
  }

  predicate OlderThan(look: Look, ids: nat) {
    match look
    case Idle => true
    case Reaching(was) => was.id < ids
    case Following(was) => was.id < ids
    case Proving(was, proof, following) =>
      && was.id < ids && following.id < ids && following.kind == was.kind && following.start.port == was.start.port == proof.port
      && (if was.kind.Own? then following == was && proof == was.start else following.start == proof)
  }

  /** What holds in every reachable state. */
  predicate Inv(s: State) {
    && LooksAgain(s)
    && OlderThan(s.look, s.ids)
    && (s.watched.Some? ==> s.watched.value.id < s.ids)
    && (s.watched.Some? && s.ended.Some? ==> s.ended == Some(s.watched.value.start))
  }

  lemma LookKeeps(s: State, event: Event)
    requires Inv(s) && (event.Fires? || event.Reached? || event.Followed?)
    ensures Inv(Step(s, event))
  {
  }

  lemma TakeBackKeeps(s: State, ok: bool, lostInBack: bool)
    requires Inv(s)
    ensures Inv(DoProved(s, ok, lostInBack))
  {
  }

  lemma StepKeeps(s: State, event: Event)
    requires Inv(s)
    ensures Inv(Step(s, event))
  {
    hide DoFires, DoReached, DoProved;
    if event.Proved? {
      TakeBackKeeps(s, event.ok, event.lostInBack);
    } else if event.Fires? || event.Reached? || event.Followed? {
      LookKeeps(s, event);
    }
  }

  lemma {:induction false} RunKeeps(events: seq<Event>, n: nat)
    requires n <= |events|
    ensures Inv(At(events, n))
  {
    hide Step;
    if n > 0 {
      RunKeeps(events, n - 1);
      StepKeeps(At(events, n - 1), events[n - 1]);
    }
  }

  /** No loss is ever left alone: in every reachable state a withheld gateway, or an ended one the app
      found, has a look running or its timer armed, unless it is an own start that was ended; and an
      End always names the very start watched. */
  lemma {:induction false} NeverStopsLooking(events: seq<Event>, n: nat)
    requires n <= |events|
    ensures var s := At(events, n);
            && (s.watched.Some? && (s.withheld || s.ended.Some?) && !Rests(s) ==> s.timer || !s.look.Idle?)
            && (s.watched.Some? && s.ended.Some? ==> s.ended.value == s.watched.value.start)
  {
    RunKeeps(events, n);
  }

  // ── It lifts only on proof ──

  /** The proof a look is acting on was taken at event *m*: for the gateway then watched, a start not
      ended then, and, for the app's own, the very start watched with the record still naming it. */
  ghost predicate TakenAt(s: State, event: Event, look: Look) {
    && look.Proving? && s.look == Reaching(look.was) && s.watched == Some(look.was)
    && event.Reached? && event.found == Some(look.proof) && s.ended != Some(look.proof)
    && (look.was.kind.Own? ==> SameStart(look.was, event.found, event.after))
    && (look.was.kind.Adopted? ==> look.proof.port == look.was.start.port)
  }

  lemma ProvesOnly(s: State, event: Event)
    requires Step(s, event).look.Proving?
    ensures if s.look.Proving? then Step(s, event).look == s.look else TakenAt(s, event, Step(s, event).look)
  {
  }

  lemma {:induction false} ProofTaken(events: seq<Event>, n: nat) returns (m: nat)
    requires n <= |events| && At(events, n).look.Proving?
    ensures m < n && TakenAt(At(events, m), events[m], At(events, n).look)
    ensures forall k | m < k <= n :: At(events, k).look == At(events, n).look
  {
    var before := At(events, n - 1);
    ProvesOnly(before, events[n - 1]);
    hide Step;
    if before.look.Proving? {
      m := ProofTaken(events, n - 1);
    } else {
      m := n - 1;
    }
  }

  /** A withhold is lifted only by a gateway taken anew (a ready line, a found gateway, none), by a
      found gateway that is gone, or on proof: a look's take-back that succeeded, whose proof was
      taken at an earlier event *m* of the same look (`TakenAt`) for the gateway still watched, and
      names the start watched from then on. The start lifted for is one that was ended exactly when it is
      the very start watched before and an End came after its proof was taken. */
  lemma LiftsOnlyOnProof(events: seq<Event>, n: nat) returns (m: nat)
    requires n < |events| && At(events, n).withheld && !At(events, n + 1).withheld
    ensures var s := At(events, n);
            var next := At(events, n + 1);
            match events[n]
            case Adopt(start) => next.watched.Some? && next.watched.value.kind.Adopted? && next.watched.value.start == start
            case OwnStart(start) => next.watched.Some? && next.watched.value.kind.Own? && next.watched.value.start == start
            case Drop => next.watched.None?
            case Fires(record, _) =>
              s.watched.Some? && s.watched.value.kind.Adopted? && !Live(record) && next.gone == s.gone + [s.watched.value.start]
            case Proved(ok, _) =>
              && ok && m < n && TakenAt(At(events, m), events[m], s.look) && s.watched == Some(s.look.was)
              && next.watched.Some? && next.watched.value.start == s.look.proof
              && (s.ended == Some(s.look.proof) <==>
                    s.look.proof == s.look.was.start && exists k :: m < k < n && events[k] == End)
            case _ => false
  {
    var s := At(events, n);
    m := 0;
    if events[n].Proved? {
      m := ProofTaken(events, n);
      if s.watched == Some(s.look.was) {
        EndedExactlyWhen(events, m, n);
      }
      RunKeeps(events, n);
    }
  }

  /** While one take-back is out, the gateway it is for is watched at its end only if it was all along. */
  lemma {:induction false} WatchedAllAlong(events: seq<Event>, m: nat, n: nat, was: Watched)
    requires m <= n <= |events| && was.id < At(events, m).ids
    requires forall k | m <= k <= n :: At(events, k).look == At(events, n).look && At(events, k).look.Proving?
    requires At(events, n).watched == Some(was)
    ensures forall k | m <= k <= n :: At(events, k).watched == Some(was)
  {
    hide Step;
    if m < n {
      IdsGrow(events, m, n - 1);
      WatchedBefore(At(events, n - 1), events[n - 1], was);
      WatchedAllAlong(events, m, n - 1, was);
    }
  }

  lemma {:induction false} IdsGrow(events: seq<Event>, m: nat, n: nat)
    requires m <= n <= |events|
    ensures At(events, m).ids <= At(events, n).ids
  {
    hide Step;
    if m < n {
      IdsGrow(events, m, n - 1);
      StepIds(At(events, n - 1), events[n - 1]);
    }
  }

  lemma StepIds(s: State, event: Event)
    ensures s.ids <= Step(s, event).ids
  {
  }

  lemma WatchedBefore(s: State, event: Event, was: Watched)
    requires was.id < s.ids && s.look.Proving? && Step(s, event).look == s.look && Step(s, event).watched == Some(was)
    ensures s.watched == Some(was)
  {
  }

  /** A gateway watched all along a take-back stays ended once it is. */
  lemma StaysEnded(s: State, event: Event, was: Watched)
    requires was.id < s.ids && s.look.Proving? && Step(s, event).look == s.look
    requires s.watched == Some(was) && Step(s, event).watched == Some(was)
    ensures Step(s, event).ended == if event == End then Some(was.start) else s.ended
  {
  }

  lemma {:induction false} EndedByOne(events: seq<Event>, m: nat, n: nat, was: Watched)
    requires m <= n <= |events| && was.id < At(events, m).ids
    requires forall k | m <= k <= n :: At(events, k).look == At(events, n).look && At(events, k).look.Proving?
    requires forall k | m <= k <= n :: At(events, k).watched == Some(was)
    ensures At(events, n).ended ==
              if exists k :: m <= k < n && events[k] == End then Some(was.start) else At(events, m).ended
  {
    hide Step;
    if m < n {
      EndedByOne(events, m, n - 1, was);
      IdsGrow(events, m, n - 1);
      StaysEnded(At(events, n - 1), events[n - 1], was);
    }
  }

  /** The start a take-back is out for was ended meanwhile exactly when it is the one watched and an End
      came since its proof was taken at event *m*. */
  lemma EndedExactlyWhen(events: seq<Event>, m: nat, n: nat)
    requires m < n <= |events| && At(events, n).look.Proving? && TakenAt(At(events, m), events[m], At(events, n).look)
    requires forall k | m < k <= n :: At(events, k).look == At(events, n).look
    requires At(events, n).watched == Some(At(events, n).look.was)
    ensures var s := At(events, n);
            s.ended == Some(s.look.proof) <==> s.look.proof == s.look.was.start && exists k :: m < k < n && events[k] == End
  {
    hide Step, SameStart;
    var look := At(events, n).look;
    assert At(events, m + 1) == Step(At(events, m), events[m]);
    assert At(events, m).ended != Some(look.proof) && events[m].Reached?;
    ReachKeepsEnded(At(events, m), events[m]);
    RunKeeps(events, m + 1);
    assert look.was.id < At(events, m + 1).ids;
    hide At, Inv, TakenAt;
    WatchedAllAlong(events, m + 1, n, look.was);
    EndedByOne(events, m + 1, n, look.was);
  }

  lemma ReachKeepsEnded(s: State, event: Event)
    requires event.Reached?
    ensures Step(s, event).ended == s.ended
  {
  }

  /** A gateway is said gone exactly when it is one the app found, with cause to look, no live record
      and its process dead; never the app's own. */
  lemma GoneExactlyWhen(s: State, event: Event)
    ensures Step(s, event).gone != s.gone <==>
              && event.Fires? && s.timer && s.look.Idle? && s.watched.Some? && (s.withheld || s.ended.Some?)
              && s.watched.value.kind.Adopted? && !Live(event.record) && !event.pidAlive
  {
  }

  /** An End of the start a take-back is out for is undone by it, always: with the start still watched and
      the sign-in back, nothing is ended any more. */
  lemma EndIsAlwaysUndone(events: seq<Event>, n: nat) returns (m: nat)
    requires n < |events| && At(events, n).look.Proving? && At(events, n).watched == Some(At(events, n).look.was)
    requires events[n].Proved? && events[n].ok
    ensures m < n && TakenAt(At(events, m), events[m], At(events, n).look)
    ensures var s := At(events, n);
            s.ended == Some(s.look.proof) <==> s.look.proof == s.look.was.start && exists k :: m < k < n && events[k] == End
    ensures var next := At(events, n + 1);
            next.ended.None? && next.withheld == events[n].lostInBack
            && next.watched.Some? && next.watched.value.start == At(events, n).look.proof
  {
    m := ProofTaken(events, n);
    EndedExactlyWhen(events, m, n);
    RunKeeps(events, n);
  }

  /** The documentation says nothing is lifted for an ended start again; the code asks only when the
      proof is taken. An End that lands while the take-back is out is undone by it. */
  lemma EndDuringTakeBackIsUndone()
    ensures var start := Start(7, 8001, "digest");
            var record := Some(Record(7, 8001, true));
            var events := [OwnStart(start), Lost, Fires(record, true), Reached(Some(start), record), End, Proved(true, false)];
            var s := At(events, 6);
            At(events, 5).ended == Some(start) && s.watched.Some? && s.watched.value.start == start && !s.withheld && s.ended.None?
  {
    var start := Start(7, 8001, "digest");
    var record := Some(Record(7, 8001, true));
    var events := [OwnStart(start), Lost, Fires(record, true), Reached(Some(start), record), End, Proved(true, false)];
    var was := Watched(0, Own, start);
    var s1 := State(Some(was), false, false, Idle, None, 1, []);
    assert At(events, 1) == s1;
    assert At(events, 2) == s1.(withheld := true, timer := true);
    assert At(events, 3) == s1.(withheld := true, look := Reaching(was));
    assert At(events, 4) == s1.(withheld := true, look := Proving(was, start, was));
    assert At(events, 5) == s1.(withheld := true, timer := true, look := Proving(was, start, was), ended := Some(start));
    assert At(events, 6) == s1.(timer := true);
  }

  // ── The watch itself ──

  /** The watch as the shell holds it: its variables, updated in place by each of its methods. */
  class Watcher {
    var watched: Option<Watched>
    var withheld: bool
    var timer: bool
    var look: Look
    var ended: Option<Start>
    var ids: nat
    /** The gateways it said gone. */
    var gone: seq<Start>

    ghost function Now(): State
      reads this
    {
      State(watched, withheld, timer, look, ended, ids, gone)
    }

    constructor ()
      ensures Now() == Init
    {
      watched, withheld, timer, look, ended, ids, gone := None, false, false, Idle, None, 0, [];
    }

    method LookAgain()
      modifies this`timer
      ensures Now() == Again(old(Now()))
    {
      if watched.Some? && (withheld || ended.Some?) && !timer {
        timer := true;
      }
    }

    method Use(kind: Kind, start: Start)
      modifies this
      ensures Now() == Step(old(Now()), if kind.Own? then OwnStart(start) else Event.Adopt(start))
    {
      timer := false;
      watched := Some(Watched(ids, kind, start));
      ids := ids + 1;
      withheld := false;
      ended := None;
    }

    method DropWatch()
      modifies this
      ensures Now() == Step(old(Now()), Drop)
    {
      timer := false;
      watched := None;
      withheld := false;
      ended := None;
    }

    method EndStart()
      modifies this
      ensures Now() == Step(old(Now()), End)
    {
      if watched.None? { return; }
      ended := Some(watched.value.start);
      LookAgain();
    }

    method Lose()
      modifies this
      ensures Now() == DoLost(old(Now()))
    {
      if watched.None? { return; }
      withheld := true;
      LookAgain();
    }

    /** The end of a look: it stands no more, and looks again while there is cause. */
    method LookEnds()
      modifies this`look, this`timer
      ensures Now() == Done(old(Now()))
    {
      look := Idle;
      LookAgain();
    }

    /** The timer's callback: a look begins, with the record as read. */
    method LookNow(record: Option<Record>, pidAlive: bool)
      modifies this
      ensures Now() == Step(old(Now()), Fires(record, pidAlive))
    {
      if !timer { return; }
      timer := false;
      if watched.None? || (!withheld && ended.None?) || !look.Idle? { return; }
      var was := watched.value;
      var live := record.Some? && record.value.alive;
      if was.kind.Own? {
        if ended.Some? { return; }
        if live && record.value.port == was.start.port && record.value.pid == was.start.pid {
          look := Reaching(was);
          return;
        }
      } else if live && record.value.port != was.start.port {
        look := Following(was);
        return;
      } else if live {
        look := Reaching(was);
        return;
      } else if !pidAlive {
        watched := None;
        withheld := false;
        gone := gone + [was.start];
      }
      LookEnds();
    }

    /** The proof's read is back, with the record read again after it. */
    method ReachAnswers(found: Option<Start>, after: Option<Record>)
      modifies this
      ensures Now() == Step(old(Now()), Reached(found, after))
    {
      if !look.Reaching? { return; }
      var was := look.was;
      if watched == Some(was) && found.Some? && ended != found {
        if was.kind.Own? {
          if found.value == was.start && after.Some? && after.value.port == was.start.port && after.value.pid == was.start.pid {
            look := Proving(was, found.value, was);
            return;
          }
        } else if found.value.port == was.start.port {
          look := Proving(was, found.value, Watched(ids, Adopted, Start(found.value.pid, was.start.port, found.value.digest)));
          ids := ids + 1;
          return;
        }
      }
      LookEnds();
    }

    method FollowAnswers(ok: bool)
      modifies this
      ensures Now() == Step(old(Now()), Followed(ok))
    {
      if look.Following? {
        LookEnds();
      }
    }

    /** The sign-in says whether it is back; only then is the withhold lifted. */
    method TakeBackAnswers(ok: bool, lostInBack: bool)
      modifies this
      ensures Now() == Step(old(Now()), Proved(ok, lostInBack))
    {
      if !look.Proving? { return; }
      if ok && watched == Some(look.was) {
        watched := Some(look.following);
        withheld := false;
        ended := None;
        if lostInBack {
          Lose();
        }
      }
      LookEnds();
    }

    /** Whatever comes next. */
    method Take(event: Event)
      modifies this
      ensures Now() == Step(old(Now()), event)
    {
      match event
      case Adopt(start) => Use(Adopted, start);
      case OwnStart(start) => Use(Own, start);
      case Drop => DropWatch();
      case End => EndStart();
      case Lost => Lose();
      case Fires(record, pidAlive) => LookNow(record, pidAlive);
      case Reached(found, after) => ReachAnswers(found, after);
      case Followed(ok) => FollowAnswers(ok);
      case Proved(ok, lostInBack) => TakeBackAnswers(ok, lostInBack);
    }
  }

  /** A watch that went through any events at all still looks again while it is withheld. */
  method WatchThrough(events: seq<Event>) returns (watcher: Watcher)
    ensures fresh(watcher) && watcher.Now() == At(events, |events|)
    ensures watcher.watched.Some? && (watcher.withheld || watcher.ended.Some?) && !Rests(watcher.Now()) ==>
              watcher.timer || !watcher.look.Idle?
  {
    watcher := new Watcher();
    for i := 0 to |events|
      invariant fresh(watcher) && watcher.Now() == At(events, i)
    {
      watcher.Take(events[i]);
    }
    NeverStopsLooking(events, |events|);
  }
}
