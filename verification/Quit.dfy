/**
 * The shell's quit, held to one deadline (desktop/quitSequence.js), composed with the stop it ends in.
 */
module Quit {
  import opened Options
  import opened Shutdown

  const SMOKE_WINDOW_MS: nat := 10_000
  const QUIT_DEADLINE_MS: nat := 8_500
  const ASK_MS: nat := 2_000
  const KILL_WAIT_MS: nat := 500
  const SWEEP_MS: nat := 500

  /** One ask of the gateway: when it is answered or fails, None for one that never is. */
  datatype Ask<T> = Answers(at: nat, value: T) | Fails(at: nat) | NeverAnswers

  /** `bounded`: the ask's value, or None once *ms* have passed or it failed; and when. */
  function Bounded<T>(ask: Ask<T>, ms: nat): (Option<T>, nat) {
    match ask
    case Answers(at, value) => if at < ms then (Some(value), at) else (None, ms)
    case Fails(at) => (None, if at < ms then at else ms)
    case NeverAnswers => (None, ms)
  }

  /** When the last of *asks*, made together, is over. */
  function AsksTake<T>(asks: seq<Ask<T>>, ms: nat): nat {
    if asks == [] then 0
    else
      var rest := AsksTake(asks[1..], ms);
      var mine := Bounded(asks[0], ms).1;
      if mine > rest then mine else rest
  }

  /** The grace left for the gateway once the asks took *elapsed*. */
  function GraceLeft(elapsed: nat, deadlineMs: nat, killWaitMs: nat): nat {
    if deadlineMs > elapsed + killWaitMs then deadlineMs - elapsed - killWaitMs else 0
  }

  lemma {:induction false} AsksAreBounded<T>(asks: seq<Ask<T>>, ms: nat)
    ensures AsksTake(asks, ms) <= ms
    ensures forall i | 0 <= i < |asks| :: Bounded(asks[i], ms).1 <= AsksTake(asks, ms)
  {
    if asks != [] {
      AsksAreBounded(asks[1..], ms);
      forall i | 0 <= i < |asks| ensures Bounded(asks[i], ms).1 <= AsksTake(asks, ms) {
        if i > 0 {
          assert asks[i] == asks[1..][i - 1];
        }
      }
    }
  }

  /** An ask counts exactly when it is answered in time, and is waited for no longer than its answer, its
      failure or its time takes. */
  lemma AnswerCountsExactlyWhen<T>(ask: Ask<T>, ms: nat)
    ensures var (value, took) := Bounded(ask, ms);
            && (forall v :: value == Some(v) <==> ask.Answers? && ask.value == v && ask.at < ms)
            && took == (if ask.NeverAnswers? || ask.at >= ms then ms else ask.at)
  {
  }

  /** The gateway's grace is all the deadline leaves once the asks and the kill wait are taken off. */
  lemma GraceUsesTheDeadline(elapsed: nat, deadlineMs: nat, killWaitMs: nat)
    ensures var grace := GraceLeft(elapsed, deadlineMs, killWaitMs);
            if elapsed + killWaitMs <= deadlineMs then elapsed + grace + killWaitMs == deadlineMs else grace == 0
  {
  }

  /** The stop a quit ends in, once its asks took *elapsed*. */
  function QuitPlan(elapsed: nat, deadlineMs: nat, killWaitMs: nat, sweepMs: nat, group: bool): Plan {
    Plan(GraceLeft(elapsed, deadlineMs, killWaitMs), killWaitMs, sweepMs, group)
  }

  /** However its asks end, and whatever the gateway then does, a quit is over within its deadline and
      one sweep, or, when the asks alone overran it, the asks, the kill wait and one sweep. */
  lemma QuitIsBounded<T>(
    asks: seq<Ask<T>>, askMs: nat, deadlineMs: nat, killWaitMs: nat, sweepMs: nat,
    child: Option<Child>, group: bool, delivered: bool, events: seq<Event>, n: nat)
    requires n <= |events|
    ensures var elapsed := AsksTake(asks, askMs);
            var s := At(child, QuitPlan(elapsed, deadlineMs, killWaitMs, sweepMs, group), delivered, events, n);
            var bound := (if deadlineMs > elapsed + killWaitMs then deadlineMs else elapsed + killWaitMs) + sweepMs;
            elapsed + (if s.settled.Some? then s.settledAt else s.now) <= bound
  {
    var elapsed := AsksTake(asks, askMs);
    OneVerdictInTime(child, QuitPlan(elapsed, deadlineMs, killWaitMs, sweepMs, group), delivered, events, n);
  }

  /** With the shell's own constants: the gateway always gets at least 6 s of grace, and the whole quit
      is over within 9 s, inside the 10 s its smoke waits. */
  lemma QuitFitsItsWindow<T>(asks: seq<Ask<T>>, child: Option<Child>, group: bool, delivered: bool, events: seq<Event>, n: nat)
    requires n <= |events|
    ensures var elapsed := AsksTake(asks, ASK_MS);
            var plan := QuitPlan(elapsed, QUIT_DEADLINE_MS, KILL_WAIT_MS, SWEEP_MS, group);
            var s := At(child, plan, delivered, events, n);
            && 6_000 <= plan.graceMs
            && elapsed + (if s.settled.Some? then s.settledAt else s.now) <= 9_000 < SMOKE_WINDOW_MS
  {
    AsksAreBounded(asks, ASK_MS);
    QuitIsBounded(asks, ASK_MS, QUIT_DEADLINE_MS, KILL_WAIT_MS, SWEEP_MS, child, group, delivered, events, n);
  }
}
