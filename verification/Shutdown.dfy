/**
 * Stopping the gateway and waiting for its fate (desktop/gatewayShutdown.js, shutdownGateway), over
 * a clock on which timers fire on time and no event comes inside a call.
 *
 * Times are counted from the moment the stop is asked. An event may come at any moment the armed
 * timers allow; whether a signal is delivered, and whether the group still has members, is the
 * system's to say.
 */
module Shutdown {
  import opened Options

  datatype Outcome = NoChild | Exited | Killed | Unreachable | Orphaned

  datatype Verdict = Verdict(outcome: Outcome, code: Option<int>, signal: Option<string>, escalated: bool, groupSwept: bool)

  datatype Kind = Term | Kill | Probe | Sweep

  /** A signal sent to the child's pid, or to its whole group. */
  datatype Signal = Signal(kind: Kind, group: bool)

  datatype Child = Child(pid: int, exitCode: Option<int>, signalCode: Option<string>)

  /** The waits it was given, and whether its signals go to the child's group. */
  datatype Plan = Plan(graceMs: nat, killMs: nat, sweepMs: nat, group: bool)

  datatype Sweeping = Sweeping(due: nat, outcome: Outcome, code: Option<int>, signal: Option<string>)

  datatype Exit = Exit(at: nat, code: Option<int>, signal: Option<string>)

  datatype State = State(
    now: nat, settled: Option<Verdict>, escalated: bool,
    grace: Option<nat>, kill: Option<nat>, sweep: Option<Sweeping>,
    signals: seq<Signal>, resolved: nat,
    exit: Option<Exit>, settledAt: nat, undelivered: bool)

  /** Whether the signals may go to the child's group: asked for, and the system says it leads one. */
  predicate GroupTarget(child: Child, killGroup: bool, pgid: Option<int>) {
    killGroup && child.pid > 1 && pgid == Some(child.pid)
  }

  function Finish(s: State, outcome: Outcome, code: Option<int>, signal: Option<string>, groupSwept: bool): State {
    if s.settled.Some? then s
    else
      s.(settled := Some(Verdict(outcome, code, signal, s.escalated, groupSwept)),
         grace := None, kill := None, sweep := None, resolved := s.resolved + 1, settledAt := s.now)
  }

  const Fresh := State(0, None, false, None, None, None, [], 0, None, 0, false)

  /** The call itself: no child or one already reaped is no stop at all; else SIGTERM goes out. */
  function Begin(child: Option<Child>, plan: Plan, delivered: bool): State {
    if child.None? then Finish(Fresh, NoChild, None, None, false)
    else if child.value.exitCode.Some? then Finish(Fresh, NoChild, child.value.exitCode, None, false)
    else if child.value.signalCode.Some? then Finish(Fresh, NoChild, None, child.value.signalCode, false)
    else
      var s := Fresh.(signals := [Signal(Term, plan.group)]);
      if delivered then s.(grace := Some(plan.graceMs))
      else Finish(s.(undelivered := true), Unreachable, None, None, false)
  }

  datatype Event =
    | Elapses(to: nat)
    | Exits(code: Option<int>, signal: Option<string>, members: bool)
    | GraceEnds(delivered: bool)
    | KillWaitEnds
    | SweepEnds(members: bool)

  /** Time passes no armed timer by. */
  predicate MayElapse(s: State, to: nat) {
    && s.now <= to
    && (s.grace.Some? ==> to <= s.grace.value)
    && (s.kill.Some? ==> to <= s.kill.value)
    && (s.sweep.Some? ==> to <= s.sweep.value.due)
  }

  function DoExits(s: State, plan: Plan, code: Option<int>, signal: Option<string>, members: bool): State {
    var outcome := if s.escalated then Killed else Exited;
    var s1 := s.(grace := None, kill := None,
                 exit := if s.settled.None? then Some(Exit(s.now, code, signal)) else s.exit);
    if !plan.group then Finish(s1, outcome, code, signal, false)
    else
      var s2 := s1.(signals := s1.signals + [Signal(Probe, true)]);
      if !members then Finish(s2, outcome, code, signal, false)
      else s2.(sweep := Some(Sweeping(s.now + plan.sweepMs, outcome, code, signal)))
  }

  function DoGraceEnds(s: State, plan: Plan, delivered: bool): State {
    var s1 := s.(grace := None, escalated := true, signals := s.signals + [Signal(Kill, plan.group)]);
    if delivered then s1.(kill := Some(s.now + plan.killMs))
    else Finish(s1.(undelivered := true), Unreachable, None, None, false)
  }

  function DoSweepEnds(s: State, members: bool): State
    requires s.sweep.Some?
  {
    var w := s.sweep.value;
    Finish(s.(sweep := None, signals := s.signals + [Signal(Sweep, true)]), w.outcome, w.code, w.signal, members)
  }

  predicate Due(s: State, timer: Option<nat>) {
    timer == Some(s.now)
  }

  function Step(s: State, plan: Plan, event: Event, exited: bool): State {
    match event
    case Elapses(to) => if MayElapse(s, to) then s.(now := to) else s
    case Exits(code, signal, members) => if exited then s else DoExits(s, plan, code, signal, members)
    case GraceEnds(delivered) => if Due(s, s.grace) then DoGraceEnds(s, plan, delivered) else s
    case KillWaitEnds =>
      if Due(s, s.kill) then Finish(s.(kill := None), Orphaned, None, None, false) else s
    case SweepEnds(members) =>
      if s.sweep.Some? && Due(s, Some(s.sweep.value.due)) then DoSweepEnds(s, members) else s
  }

  predicate HasExited(events: seq<Event>, n: nat)
    requires n <= |events|
  {
    exists k :: 0 <= k < n && events[k].Exits?
  }

  /** The stop after the first *n* of *events*; the child's exit is heard once, and only of a child
      that was there to stop. */
  function At(child: Option<Child>, plan: Plan, delivered: bool, events: seq<Event>, n: nat): State
    requires n <= |events|
  {
    if n == 0 then Begin(child, plan, delivered)
    else Step(At(child, plan, delivered, events, n - 1), plan, events[n - 1], HasExited(events, n - 1) || !Stops(child))
  }

  /** Whether there is a child to stop. */
  predicate Stops(child: Option<Child>) {
    child.Some? && child.value.exitCode.None? && child.value.signalCode.None?
  }

  // ── One verdict, the one its history dictates, in time ──

  /** A stop not settled waits on exactly the timer its history says, and that timer is in time. */
  predicate Waiting(s: State, plan: Plan) {
    if s.exit.Some? then
      && s.sweep.Some? && s.grace.None? && s.kill.None? && plan.group
      && s.exit.value.at <= s.now <= s.sweep.value.due == s.exit.value.at + plan.sweepMs
      && s.sweep.value == Sweeping(s.sweep.value.due, if s.escalated then Killed else Exited, s.exit.value.code, s.exit.value.signal)
      && s.exit.value.at <= plan.graceMs + (if s.escalated then plan.killMs else 0)
      && (s.escalated ==> plan.graceMs <= s.exit.value.at)
    else
      && s.sweep.None?
      && (if s.escalated then s.grace.None? && s.kill == Some(plan.graceMs + plan.killMs) && plan.graceMs <= s.now <= plan.graceMs + plan.killMs
          else s.kill.None? && s.grace == Some(plan.graceMs) && s.now <= plan.graceMs)
  }

  /** What a verdict says, and when it was given. */
  predicate Dictated(s: State, plan: Plan, v: Verdict) {
    && v.escalated == s.escalated
    && match v.outcome
       case NoChild => s.settledAt == 0 && s.signals == [] && !s.escalated
       case Unreachable =>
         s.exit.None? && s.undelivered && s.settledAt == (if s.escalated then plan.graceMs else 0)
       case Orphaned => s.exit.None? && s.escalated && s.settledAt == plan.graceMs + plan.killMs
       case Exited => !s.escalated && s.exit.Some? && s.exit.value.at <= plan.graceMs && ByExit(s, plan, v)
       case Killed =>
         s.escalated && s.exit.Some? && plan.graceMs <= s.exit.value.at <= plan.graceMs + plan.killMs && ByExit(s, plan, v)
  }

  predicate ByExit(s: State, plan: Plan, v: Verdict)
    requires s.exit.Some?
  {
    && v.code == s.exit.value.code && v.signal == s.exit.value.signal
    && (s.settledAt == s.exit.value.at || (plan.group && s.settledAt == s.exit.value.at + plan.sweepMs))
    && (v.groupSwept ==> plan.group && s.settledAt == s.exit.value.at + plan.sweepMs)
  }

  predicate Inv(s: State, plan: Plan, stops: bool) {
    && (if s.settled.Some? then Dictated(s, plan, s.settled.value) && s.grace.None? && s.kill.None? && s.settledAt <= s.now
        else Waiting(s, plan) && !s.undelivered)
    && s.resolved == (if s.settled.Some? then 1 else 0)
    && (!stops ==> s.settled.Some? && s.settled.value.outcome.NoChild? && s.sweep.None?)
    && (stops ==> s.settled.Some? ==> !s.settled.value.outcome.NoChild?)
    && (s.sweep.Some? ==> plan.group)
    && (forall i | 0 <= i < |s.signals| :: s.signals[i].group ==> plan.group)
  }

  /** What a step keeps; *exited* says whether the exit was heard before it, *heard* after. */
  predicate Kept(s: State, next: State, plan: Plan, stops: bool, heard: bool) {
    && Inv(next, plan, stops)
    && (s.settled.Some? ==> next.settled == s.settled && next.settledAt == s.settledAt)
    && (next.settled.None? ==> next.exit.Some? == heard)
  }

  predicate Ready(s: State, plan: Plan, exited: bool, stops: bool) {
    Inv(s, plan, stops) && (!stops ==> exited) && (s.settled.None? ==> exited == s.exit.Some?)
  }

  lemma ElapsesKeeps(s: State, plan: Plan, to: nat, exited: bool, stops: bool)
    requires Ready(s, plan, exited, stops)
    ensures Kept(s, Step(s, plan, Elapses(to), exited), plan, stops, exited)
  {
  }

  lemma ExitsKeeps(s: State, plan: Plan, event: Event, exited: bool, stops: bool)
    requires Ready(s, plan, exited, stops) && event.Exits?
    ensures Kept(s, Step(s, plan, event, exited), plan, stops, true)
  {
  }

  lemma GraceKeeps(s: State, plan: Plan, delivered: bool, exited: bool, stops: bool)
    requires Ready(s, plan, exited, stops)
    ensures Kept(s, Step(s, plan, GraceEnds(delivered), exited), plan, stops, exited)
  {
  }

  lemma KillWaitKeeps(s: State, plan: Plan, exited: bool, stops: bool)
    requires Ready(s, plan, exited, stops)
    ensures Kept(s, Step(s, plan, KillWaitEnds, exited), plan, stops, exited)
  {
  }

  lemma SweepKeeps(s: State, plan: Plan, members: bool, exited: bool, stops: bool)
    requires Ready(s, plan, exited, stops)
    ensures Kept(s, Step(s, plan, SweepEnds(members), exited), plan, stops, exited)
  {
  }

  lemma StepKeeps(s: State, plan: Plan, event: Event, exited: bool, stops: bool)
    requires Ready(s, plan, exited, stops)
    ensures Kept(s, Step(s, plan, event, exited), plan, stops, exited || event.Exits?)
  {
    hide Step, Inv;
    match event
    case Elapses(to) => ElapsesKeeps(s, plan, to, exited, stops);
    case Exits(_, _, _) => ExitsKeeps(s, plan, event, exited, stops);
    case GraceEnds(delivered) => GraceKeeps(s, plan, delivered, exited, stops);
    case KillWaitEnds => KillWaitKeeps(s, plan, exited, stops);
    case SweepEnds(members) => SweepKeeps(s, plan, members, exited, stops);
  }

  lemma {:induction false} RunKeeps(child: Option<Child>, plan: Plan, delivered: bool, events: seq<Event>, n: nat)
    requires n <= |events|
    ensures var s := At(child, plan, delivered, events, n);
            Inv(s, plan, Stops(child)) && (s.settled.None? ==> s.exit.Some? == HasExited(events, n))
  {
    if n > 0 {
      RunKeeps(child, plan, delivered, events, n - 1);
      var s := At(child, plan, delivered, events, n - 1);
      StepKeeps(s, plan, events[n - 1], HasExited(events, n - 1) || !Stops(child), Stops(child));
      assert HasExited(events, n) == (HasExited(events, n - 1) || events[n - 1].Exits?) by {
        if events[n - 1].Exits? { assert events[n - 1].Exits?; }
      }
    }
  }

  /** The stop resolves exactly once, with the verdict its history dictates: the child's own exit,
      before the grace ended or after SIGKILL, with its code; a signal that could not be delivered; or
      no exit at all after SIGKILL. And it is given within grace, kill wait and sweep: until then the
      one timer it waits on is armed, due by then, and no time passes it by. */
  lemma OneVerdictInTime(child: Option<Child>, plan: Plan, delivered: bool, events: seq<Event>, n: nat)
    requires n <= |events|
    ensures var s := At(child, plan, delivered, events, n);
            && s.resolved == (if s.settled.Some? then 1 else 0)
            && (match s.settled
                case Some(v) => Dictated(s, plan, v) && s.settledAt <= plan.graceMs + plan.killMs + plan.sweepMs
                case None =>
                  && s.now <= plan.graceMs + plan.killMs + plan.sweepMs
                  && (|| (s.grace.Some? && s.now <= s.grace.value <= plan.graceMs + plan.killMs + plan.sweepMs)
                      || (s.kill.Some? && s.now <= s.kill.value <= plan.graceMs + plan.killMs + plan.sweepMs)
                      || (s.sweep.Some? && s.now <= s.sweep.value.due <= plan.graceMs + plan.killMs + plan.sweepMs)))
  {
    RunKeeps(child, plan, delivered, events, n);
  }

  /** A verdict, once given, stands: whatever comes after, a late exit and its sweep included. */
  lemma {:induction false} VerdictStands(child: Option<Child>, plan: Plan, delivered: bool, events: seq<Event>, m: nat, n: nat)
    requires m <= n <= |events| && At(child, plan, delivered, events, m).settled.Some?
    ensures At(child, plan, delivered, events, n).settled == At(child, plan, delivered, events, m).settled
    ensures At(child, plan, delivered, events, n).settledAt == At(child, plan, delivered, events, m).settledAt
  {
    if m < n {
      VerdictStands(child, plan, delivered, events, m, n - 1);
      RunKeeps(child, plan, delivered, events, n - 1);
      StepKeeps(At(child, plan, delivered, events, n - 1), plan, events[n - 1], HasExited(events, n - 1) || !Stops(child), Stops(child));
    }
  }

  /** No signal ever goes to a group the child does not lead: not the app's own. */
  lemma GroupOnlyWhenLed(child: Child, killGroup: bool, pgid: Option<int>, waits: Plan, delivered: bool, events: seq<Event>, n: nat)
    requires n <= |events|
    ensures var plan := waits.(group := GroupTarget(child, killGroup, pgid));
            forall i | 0 <= i < |At(Some(child), plan, delivered, events, n).signals| ::
              At(Some(child), plan, delivered, events, n).signals[i].group ==> killGroup && pgid == Some(child.pid) && child.pid > 1
  {
    RunKeeps(Some(child), waits.(group := GroupTarget(child, killGroup, pgid)), delivered, events, n);
  }

  // ── Which signals go out, and when it ends ──

  /** The grace ends at event *k* with no exit: SIGKILL's turn. */
  predicate GraceOver(child: Option<Child>, plan: Plan, delivered: bool, events: seq<Event>, k: nat)
    requires k < |events|
  {
    var s := At(child, plan, delivered, events, k);
    events[k].GraceEnds? && s.grace == Some(s.now)
  }

  /** The sweep's wait ends at event *k*. */
  predicate SweepOver(child: Option<Child>, plan: Plan, delivered: bool, events: seq<Event>, k: nat)
    requires k < |events|
  {
    var s := At(child, plan, delivered, events, k);
    events[k].SweepEnds? && s.sweep.Some? && s.sweep.value.due == s.now
  }

  function IfSo(sent: bool, signal: Signal): seq<Signal> {
    if sent then [signal] else []
  }

  /** The signals of a stop that *killed*, heard the child's *exit*, and *swept* its group. */
  function SignalsOf(plan: Plan, stops: bool, killed: bool, exit: bool, swept: bool): seq<Signal> {
    if !stops then []
    else
      [Signal(Term, plan.group)] + IfSo(killed, Signal(Kill, plan.group))
      + IfSo(exit && plan.group, Signal(Probe, true)) + IfSo(swept, Signal(Sweep, true))
  }

  predicate SignalInv(s: State, plan: Plan, stops: bool, exit: bool, swept: bool) {
    && s.signals == SignalsOf(plan, stops, s.escalated, exit, swept)
    && (!stops ==> s.grace.None? && s.kill.None? && s.sweep.None? && !s.escalated)
    && (s.grace.Some? ==> !exit && !s.escalated)
    && (s.sweep.Some? ==> exit && !swept && plan.group)
    && (swept ==> exit)
  }

  /** What a step keeps of that, *ended* saying whether the grace ended at it. */
  predicate SignalsKept(s: State, next: State, plan: Plan, stops: bool, exit: bool, swept: bool, ended: bool) {
    SignalInv(next, plan, stops, exit, swept) && (next.escalated <==> s.escalated || ended)
  }

  lemma ExitSignals(s: State, plan: Plan, event: Event, stops: bool, exit: bool, swept: bool)
    requires SignalInv(s, plan, stops, exit, swept) && event.Exits?
    ensures SignalsKept(s, Step(s, plan, event, exit || !stops), plan, stops, true, swept, false)
  {
    hide DoGraceEnds, DoSweepEnds;
  }

  lemma GraceSignals(s: State, plan: Plan, event: Event, stops: bool, exit: bool, swept: bool)
    requires SignalInv(s, plan, stops, exit, swept) && event.GraceEnds?
    ensures SignalsKept(s, Step(s, plan, event, exit || !stops), plan, stops, exit, swept, s.grace == Some(s.now))
  {
    hide DoExits, DoSweepEnds;
  }

  lemma SweepSignals(s: State, plan: Plan, event: Event, stops: bool, exit: bool, swept: bool)
    requires SignalInv(s, plan, stops, exit, swept) && event.SweepEnds?
    ensures SignalsKept(s, Step(s, plan, event, exit || !stops), plan, stops, exit,
                        swept || (s.sweep.Some? && s.sweep.value.due == s.now), false)
  {
    hide DoExits, DoGraceEnds;
  }

  lemma TimeSignals(s: State, plan: Plan, event: Event, stops: bool, exit: bool, swept: bool)
    requires SignalInv(s, plan, stops, exit, swept) && (event.Elapses? || event.KillWaitEnds?)
    ensures SignalsKept(s, Step(s, plan, event, exit || !stops), plan, stops, exit, swept, false)
  {
    hide DoExits, DoGraceEnds, DoSweepEnds, SignalsOf;
  }

  lemma StepSignals(s: State, plan: Plan, event: Event, stops: bool, exit: bool, swept: bool)
    requires SignalInv(s, plan, stops, exit, swept)
    ensures SignalsKept(s, Step(s, plan, event, exit || !stops), plan, stops, exit || event.Exits?,
                        swept || (event.SweepEnds? && s.sweep.Some? && s.sweep.value.due == s.now),
                        event.GraceEnds? && s.grace == Some(s.now))
  {
    hide Step, SignalInv, SignalsKept;
    match event
    case Exits(_, _, _) => ExitSignals(s, plan, event, stops, exit, swept);
    case GraceEnds(_) => GraceSignals(s, plan, event, stops, exit, swept);
    case SweepEnds(_) => SweepSignals(s, plan, event, stops, exit, swept);
    case _ => TimeSignals(s, plan, event, stops, exit, swept);
  }

  /** Which signals have gone out, in their order, over every run: none to a child that was not there; else
      SIGTERM; SIGKILL exactly when the grace ended with no exit heard; then, for a group, one look whether it
      still has members, exactly at the exit; and last the sweep of it, exactly when its wait ended. */
  lemma {:induction false} SignalsInOrder(child: Option<Child>, plan: Plan, delivered: bool, events: seq<Event>, n: nat)
    requires n <= |events|
    ensures At(child, plan, delivered, events, n).signals ==
              SignalsOf(plan, Stops(child), exists k :: 0 <= k < n && GraceOver(child, plan, delivered, events, k),
                        HasExited(events, n), exists k :: 0 <= k < n && SweepOver(child, plan, delivered, events, k))
    ensures SignalInv(At(child, plan, delivered, events, n), plan, Stops(child), HasExited(events, n),
                      exists k :: 0 <= k < n && SweepOver(child, plan, delivered, events, k))
    ensures At(child, plan, delivered, events, n).escalated <==>
              exists k :: 0 <= k < n && GraceOver(child, plan, delivered, events, k)
  {
    hide Step, SignalsOf;
    if n > 0 {
      SignalsInOrder(child, plan, delivered, events, n - 1);
      var s, swept := At(child, plan, delivered, events, n - 1), exists k :: 0 <= k < n - 1 && SweepOver(child, plan, delivered, events, k);
      StepSignals(s, plan, events[n - 1], Stops(child), HasExited(events, n - 1), swept);
      ExitedNext(events, n);
      assert At(child, plan, delivered, events, n) == Step(s, plan, events[n - 1], HasExited(events, n - 1) || !Stops(child));
      assert GraceOver(child, plan, delivered, events, n - 1) <==> events[n - 1].GraceEnds? && s.grace == Some(s.now);
      assert SweepOver(child, plan, delivered, events, n - 1) <==>
             events[n - 1].SweepEnds? && s.sweep.Some? && s.sweep.value.due == s.now;
      hide HasExited, At, GraceOver, SweepOver, Stops;
    } else {
      BeginSignals(child, plan, delivered);
    }
  }

  lemma BeginSignals(child: Option<Child>, plan: Plan, delivered: bool)
    ensures SignalInv(Begin(child, plan, delivered), plan, Stops(child), false, false) && !Begin(child, plan, delivered).escalated
  {
  }

  /** The event ends a stop not settled: the exit, of a child alone or with no member of its group left; the
      grace or the kill wait, with nothing more to wait for; the sweep. */
  predicate Ends(s: State, plan: Plan, event: Event, exited: bool) {
    match event
    case Exits(_, _, members) => !exited && !(plan.group && members)
    case GraceEnds(delivered) => s.grace == Some(s.now) && !delivered
    case KillWaitEnds => s.kill == Some(s.now)
    case SweepEnds(_) => s.sweep.Some? && s.sweep.value.due == s.now
    case Elapses(_) => false
  }

  /** When the verdict comes, exactly, and that time passes whenever no armed timer is overtaken. */
  lemma SettlesExactlyWhen(s: State, plan: Plan, event: Event, exited: bool)
    requires s.settled.None?
    ensures Step(s, plan, event, exited).settled.Some? <==> Ends(s, plan, event, exited)
    ensures event.Elapses? ==>
              Step(s, plan, event, exited) == s.(now := if MayElapse(s, event.to) then event.to else s.now)
  {
  }

  /** What the verdict says of the group: that it was swept, exactly when its wait ended with members left. */
  lemma SweptExactlyWhen(s: State, plan: Plan, event: Event, exited: bool)
    requires s.settled.None? && Step(s, plan, event, exited).settled.Some?
    ensures Step(s, plan, event, exited).settled.value.groupSwept <==> event.SweepEnds? && event.members
  {
  }

  /** A child that was not there, or was gone already, is no stop, over every run: the verdict says so, with the
      code or the signal it ended with, and nothing is ever sent. */
  lemma NoChildNoStop(child: Option<Child>, plan: Plan, delivered: bool, events: seq<Event>, n: nat)
    requires n <= |events|
    requires child.None? || child.value.exitCode.Some? || child.value.signalCode.Some?
    ensures var s := At(child, plan, delivered, events, n);
            && s.signals == []
            && s.settled == Some(Verdict(NoChild, if child.Some? then child.value.exitCode else None,
                                         if child.Some? && child.value.exitCode.None? then child.value.signalCode else None, false, false))
  {
    VerdictStands(child, plan, delivered, events, 0, n);
    SignalsInOrder(child, plan, delivered, events, n);
  }

  /** The signals go to the child's group exactly when that was asked for and the child leads one. */
  lemma GroupExactlyWhen(child: Child, killGroup: bool, pgid: Option<int>, waits: Plan, delivered: bool, events: seq<Event>, n: nat)
    requires n <= |events| && child.exitCode.None? && child.signalCode.None?
    ensures var s := At(Some(child), waits.(group := GroupTarget(child, killGroup, pgid)), delivered, events, n);
            s.signals != [] && s.signals[0] == Signal(Term, killGroup && child.pid > 1 && pgid == Some(child.pid))
  {
    SignalsInOrder(Some(child), waits.(group := GroupTarget(child, killGroup, pgid)), delivered, events, n);
  }

  // ── The stop itself ──

  /** One stop under way: its flags and timers, updated in place by the exit event and the timers. */
  class Stopping {
    const plan: Plan
    var now: nat
    var settled: Option<Verdict>
    var escalated: bool
    var grace: Option<nat>
    var kill: Option<nat>
    var sweep: Option<Sweeping>
    var signals: seq<Signal>
    var resolved: nat
    var exit: Option<Exit>
    var settledAt: nat
    var undelivered: bool

    ghost function Now(): State
      reads this
    {
      State(now, settled, escalated, grace, kill, sweep, signals, resolved, exit, settledAt, undelivered)
    }

    constructor (child: Option<Child>, plan: Plan, delivered: bool)
      ensures this.plan == plan && Now() == Begin(child, plan, delivered)
    {
      this.plan := plan;
      now, settled, escalated, grace, kill, sweep := 0, None, false, None, None, None;
      signals, resolved, exit, settledAt, undelivered := [], 0, None, 0, false;
      new;
      if child.None? {
        Settle(NoChild, None, None, false);
      } else if child.value.exitCode.Some? {
        Settle(NoChild, child.value.exitCode, None, false);
      } else if child.value.signalCode.Some? {
        Settle(NoChild, None, child.value.signalCode, false);
      } else {
        signals := [Signal(Term, plan.group)];
        if delivered {
          grace := Some(plan.graceMs);
        } else {
          undelivered := true;
          Settle(Unreachable, None, None, false);
        }
      }
    }

    /** `finish`: the first verdict stands, and every timer is cleared. */
    method Settle(outcome: Outcome, code: Option<int>, signal: Option<string>, groupSwept: bool)
      modifies this
      ensures Now() == Finish(old(Now()), outcome, code, signal, groupSwept)
    {
      if settled.Some? { return; }
      settled := Some(Verdict(outcome, code, signal, escalated, groupSwept));
      grace, kill, sweep := None, None, None;
      resolved := resolved + 1;
      settledAt := now;
    }

    method ExitEvent(code: Option<int>, signal: Option<string>, members: bool)
      modifies this
      ensures Now() == Step(old(Now()), plan, Exits(code, signal, members), false)
    {
      hide DoGraceEnds, DoSweepEnds, MayElapse;
      var outcome := if escalated then Killed else Exited;
      grace, kill := None, None;
      if settled.None? {
        exit := Some(Exit(now, code, signal));
      }
      if !plan.group {
        Settle(outcome, code, signal, false);
        return;
      }
      signals := signals + [Signal(Probe, true)];
      if !members {
        Settle(outcome, code, signal, false);
        return;
      }
      sweep := Some(Sweeping(now + plan.sweepMs, outcome, code, signal));
    }

    method GraceTimer(delivered: bool)
      requires grace == Some(now)
      modifies this
      ensures Now() == Step(old(Now()), plan, GraceEnds(delivered), false)
    {
      grace := None;
      escalated := true;
      signals := signals + [Signal(Kill, plan.group)];
      if delivered {
        kill := Some(now + plan.killMs);
      } else {
        undelivered := true;
        Settle(Unreachable, None, None, false);
      }
    }

    method KillTimer()
      requires kill == Some(now)
      modifies this
      ensures Now() == Step(old(Now()), plan, KillWaitEnds, false)
    {
      kill := None;
      Settle(Orphaned, None, None, false);
    }

    method SweepTimer(members: bool)
      requires sweep.Some? && sweep.value.due == now
      modifies this
      ensures Now() == Step(old(Now()), plan, SweepEnds(members), false)
    {
      var w := sweep.value;
      sweep := None;
      signals := signals + [Signal(Sweep, true)];
      Settle(w.outcome, w.code, w.signal, members);
    }

    /** Time passes, no armed timer by. */
    method Passes(to: nat)
      requires MayElapse(Now(), to)
      modifies this`now
      ensures Now() == Step(old(Now()), plan, Elapses(to), false)
    {
      now := to;
    }

    /** Whatever comes next: an exit heard already, or a timer not due, says nothing. */
    method Take(event: Event, exited: bool)
      modifies this
      ensures Now() == Step(old(Now()), plan, event, exited)
    {
      match event
      case Elapses(to) =>
        if now <= to && (grace.Some? ==> to <= grace.value) && (kill.Some? ==> to <= kill.value)
           && (sweep.Some? ==> to <= sweep.value.due) { Passes(to); }
      case Exits(code, signal, members) => if !exited { ExitEvent(code, signal, members); }
      case GraceEnds(delivered) => if grace == Some(now) { GraceTimer(delivered); }
      case KillWaitEnds => if kill == Some(now) { KillTimer(); }
      case SweepEnds(members) => if sweep.Some? && sweep.value.due == now { SweepTimer(members); }
    }
  }

  /** A stop that went through any events at all has resolved at most once, in time, with the verdict its
      history dictates, or waits on a timer that is. */
  method StopThrough(child: Option<Child>, plan: Plan, delivered: bool, events: seq<Event>) returns (stopping: Stopping)
    ensures fresh(stopping) && stopping.Now() == At(child, plan, delivered, events, |events|)
    ensures stopping.resolved <= 1
    ensures match stopping.settled
            case Some(v) => stopping.resolved == 1 && Dictated(stopping.Now(), plan, v)
                            && stopping.settledAt <= plan.graceMs + plan.killMs + plan.sweepMs
            case None => stopping.grace.Some? || stopping.kill.Some? || stopping.sweep.Some?
  {
    stopping := new Stopping(child, plan, delivered);
    var exited := child.None? || child.value.exitCode.Some? || child.value.signalCode.Some?;
    for i := 0 to |events|
      invariant fresh(stopping) && stopping.plan == plan
      invariant stopping.Now() == At(child, plan, delivered, events, i)
      invariant exited == (HasExited(events, i) || !Stops(child))
    {
      stopping.Take(events[i], exited);
      ExitedNext(events, i + 1);
      exited := exited || events[i].Exits?;
    }
    OneVerdictInTime(child, plan, delivered, events, |events|);
    hide Step;
  }

  lemma ExitedNext(events: seq<Event>, n: nat)
    requires 0 < n <= |events|
    ensures HasExited(events, n) <==> HasExited(events, n - 1) || events[n - 1].Exits?
  {
  }
}
