/**
 * What a look does with what it reads: which record starts which look, which proof a take-back, and what
 * a take-back leaves; so a gateway that is there again is taken back, started anew or not.
 */
module WatchTakesBack {
  import opened Options
  import opened GatewayWatch

  // ── What a look begins with ──

  /** A look begins: its timer fires with cause, none is running, and an own start was not ended. */
  predicate Begins(s: State) {
    s.timer && s.look.Idle? && s.watched.Some? && (s.withheld || s.ended.Some?) && !(s.watched.value.kind.Own? && s.ended.Some?)
  }

  /** What the record read has a look do. */
  datatype Course = Reads | Follows | SaysGone | LooksLater

  function CourseOf(was: Watched, record: Option<Record>, pidAlive: bool): Course {
    var there := record.Some? && record.value.alive;
    if there && record.value.port == was.start.port && (was.kind.Adopted? || record.value.pid == was.start.pid) then Reads
    else if there && was.kind.Adopted? then Follows
    else if was.kind.Adopted? && !pidAlive then SaysGone
    else LooksLater
  }

  /** A look that begins reads the proof when the record names the gateway's port, for the app's own its pid
      too; follows a found one whose record moved; says one gone that has no live record and a dead process;
      and otherwise looks later. The timer is armed again exactly in the last case; with no cause to look the
      timer's firing does nothing more. */
  lemma LookBeginsExactly(s: State, record: Option<Record>, pidAlive: bool)
    requires s.timer
    ensures var next := Step(s, Fires(record, pidAlive));
            if !Begins(s) then next == s.(timer := false)
            else
              var was := s.watched.value;
              match CourseOf(was, record, pidAlive)
              case Reads => next == s.(timer := false, look := Reaching(was))
              case Follows => next == s.(timer := false, look := Following(was))
              case SaysGone => next.watched.None? && !next.withheld && !next.timer && next.look.Idle? && next.gone == s.gone + [was.start]
              case LooksLater => next == s
  {
  }

  // ── Which proof starts a take-back ──

  /** The proof read is one to act on: of the gateway still watched, for a start not ended; of the app's own
      the very start, the record read after it naming it; of a found one any start at its port. */
  predicate IsProof(s: State, was: Watched, found: Option<Start>, after: Option<Record>) {
    && s.watched == Some(was) && found.Some? && s.ended != found
    && match was.kind
       case Own => found.value == was.start && after.Some? && after.value.port == was.start.port && after.value.pid == was.start.pid
       case Adopted => found.value.port == was.start.port
  }

  /** A look that reads the proof starts a take-back exactly on one to act on; else it ends, to look again
      while there is cause. */
  lemma TakeBackBeginsExactlyWhen(s: State, found: Option<Start>, after: Option<Record>)
    requires s.look.Reaching?
    ensures var was, next := s.look.was, Step(s, Reached(found, after));
            if IsProof(s, was, found, after) then
              && next.look.Proving? && next.look.was == was && next.look.proof == found.value
              && next.(look := s.look, ids := s.ids) == s
            else
              next == s.(look := Idle, timer := s.timer || (s.watched.Some? && (s.withheld || s.ended.Some?)))
  {
  }

  /** A take-back that succeeds on the gateway still watched leaves it watched at the start proven, nothing
      withheld and nothing ended, but for a loss while it hands over; on another gateway, or failing, it
      leaves what is watched alone. Either way the look is over, and another is armed while there is cause. */
  lemma TakeBackLeaves(events: seq<Event>, n: nat)
    requires n < |events| && At(events, n).look.Proving? && events[n].Proved?
    ensures var s, next := At(events, n), At(events, n + 1);
            var Proved(ok, lostInBack) := events[n];
            && next.look.Idle?
            && (if ok && s.watched == Some(s.look.was)
                then
                  && next.watched.Some? && next.watched.value.kind == s.look.was.kind && next.watched.value.start == s.look.proof
                  && next.withheld == lostInBack && next.ended.None? && (next.timer <==> s.timer || lostInBack)
                else
                  && next.watched == s.watched && next.withheld == s.withheld && next.ended == s.ended
                  && (next.timer <==> s.timer || (s.watched.Some? && (s.withheld || s.ended.Some?))))
  {
    RunKeeps(events, n);
  }

  /** Any events after *n*. */
  predicate Comes(events: seq<Event>, n: nat, next: seq<Event>)
    requires n <= |events|
  {
    n + |next| <= |events| && events[n..n + |next|] == next
  }

  /** A lost gateway that is there again is taken back, over every run: the look that the loss has armed
      reads its record, the proof, and the take-back's end, and what is watched is the start proven, with
      nothing withheld and nothing ended; for a found gateway whatever start is at its port now. */
  lemma LostGatewayIsTakenBack(events: seq<Event>, n: nat, record: Record, found: Start, after: Record)
    requires n <= |events| && Begins(At(events, n)) && Comes(events, n, [Fires(Some(record), true), Reached(Some(found), Some(after)), Proved(true, false)])
    requires record.alive && At(events, n).ended != Some(found)
    requires var was := At(events, n).watched.value;
             && record.port == found.port == was.start.port
             && (was.kind.Own? ==> found == was.start && record.pid == after.pid == found.pid && after.port == found.port)
    ensures var s, next := At(events, n), At(events, n + 3);
            && next.watched.Some? && next.watched.value.kind == s.watched.value.kind && next.watched.value.start == found
            && !next.withheld && next.ended.None? && !next.timer && next.look.Idle?
  {
    var next := [Fires(Some(record), true), Reached(Some(found), Some(after)), Proved(true, false)];
    assert events[n..n + 3][0] == next[0] && events[n..n + 3][1] == next[1] && events[n..n + 3][2] == next[2];
    var s, s1, s2 := At(events, n), At(events, n + 1), At(events, n + 2);
    LookBeginsExactly(s, Some(record), true);
    TakeBackBeginsExactlyWhen(s1, Some(found), Some(after));
    hide Step;
    TakeBackLeaves(events, n + 2);
  }

  // ── What else changes it ──

  /** The gateway watched changes exactly when one is taken, dropped, said gone or taken back. */
  lemma WatchedExactly(events: seq<Event>, n: nat)
    requires n < |events|
    ensures var s, next := At(events, n), At(events, n + 1);
            match events[n]
            case Adopt(start) =>
              next.watched == Some(Watched(s.ids, Adopted, start)) && !next.withheld && next.ended.None? && !next.timer
            case OwnStart(start) =>
              next.watched == Some(Watched(s.ids, Own, start)) && !next.withheld && next.ended.None? && !next.timer
            case Drop => next.watched.None? && !next.withheld && next.ended.None? && !next.timer
            case Lost => next == if s.watched.None? then s else s.(withheld := true, timer := true)
            case End => next == if s.watched.None? then s else s.(ended := Some(s.watched.value.start), timer := true)
            case Followed(_) =>
              next == if s.look.Following? then s.(look := Idle, timer := s.timer || (s.watched.Some? && (s.withheld || s.ended.Some?))) else s
            case Fires(_, _) => next.watched == s.watched || (s.watched.Some? && next.gone == s.gone + [s.watched.value.start])
            case Reached(_, _) => next.watched == s.watched
            case Proved(ok, _) => next.watched == s.watched || (s.look.Proving? && ok && s.watched == Some(s.look.was))
  {
  }

  /** An object watched is told from every earlier one. */
  lemma TakenAnewIsAnother(events: seq<Event>, n: nat)
    requires n < |events| && (events[n].Adopt? || events[n].OwnStart?)
    ensures var s, next := At(events, n), At(events, n + 1);
            && next.watched.Some? && next.watched != s.watched
            && (s.look.Reaching? || s.look.Proving? ==> next.watched != Some(s.look.was))
  {
    RunKeeps(events, n);
    RunKeeps(events, n + 1);
  }
}
