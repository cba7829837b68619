/**
 * The sign-in record as the shell holds it (desktop/localSignIn.js, makeLocalSignIn): one object
 * whose methods update its variables in place, each method being one step between awaits. What it
 * does is `SignIn.Step`, over which `SignInJar` and `SignInLoss` prove what every run keeps.
 */
module LocalSignIn {
  import opened Options
  import opened WindowTraffic
  import opened SignIn
  import opened SignInJar

  class Record {
    var held: Option<Session>
    var withheld: bool
    var gen: nat
    var signedOut: bool
    var cookieFollows: bool
    var retired: set<Origin>
    var paired: set<Origin>
    /** The cookie store: what was issued to it, and what of it has taken effect. */
    var ops: seq<Op>
    var landed: seq<bool>
    /** The calls made so far, each with the locals it is suspended with. */
    var calls: seq<Call>

    ghost function State(): World
      reads this
    {
      World(held, withheld, gen, signedOut, cookieFollows, retired, paired, ops, landed, calls)
    }

    constructor ()
      ensures State() == Init
    {
      held, withheld, gen, signedOut, cookieFollows := None, false, 0, false, true;
      retired, paired, ops, landed, calls := {}, {}, [], [], [];
    }

    /** Hand *op* to the store; the call that did awaits it by its place in the queue. */
    method Send(op: Op) returns (at: nat)
      modifies this`ops
      ensures at == |old(ops)| && ops == old(ops) + [op]
    {
      at := |ops|;
      ops := ops + [op];
    }

    /** The rest of `adopt`, once the session it replaced has left the jar. */
    method AdoptRest(mine: nat, previous: Option<Session>, ready: Option<Ready>) returns (call: Call)
      modifies this`ops, this`withheld
      ensures (State(), call) == AdoptOn(old(State()), mine, previous, ready)
    {
      var handed := None;
      if previous.Some? {
        handed := Handed(previous.value, held);
      }
      if gen != mine {
        return Returned(Replaced(handed));
      }
      if held.Some? && WritesCookie(held.value) {
        var at := Send(Write(held.value.port, held.value.token));
        return AdoptWriting(mine, held.value, handed, at);
      }
      if held.Some? && held.value.token != "" {
        withheld := true;
        if previous.Some? && previous.value.token != "" && previous.value.port == held.value.port {
          var at := Send(Remove(previous.value.port));
          return AdoptClearing(handed, at);
        }
      } else if ready.Some? {
        withheld := false;
      }
      return Returned(Replaced(handed));
    }

    method AdoptCall(ready: Option<Ready>, pair: Option<string>, start: Option<Start>)
      modifies this
      ensures State() == Step(old(State()), Adopt(ready, pair, start))
    {
      var previous := held;
      gen := gen + 1;
      var mine := gen;
      held := SessionOf(ready, pair, start);
      signedOut := false;
      cookieFollows := true;
      retired := Unretired(retired, held);
      var call;
      if previous.Some? && (held.None? || previous.value.port != held.value.port) {
        var at := Send(Remove(previous.value.port));
        call := AdoptLeaving(mine, previous.value, ready, at);
      } else {
        call := AdoptRest(mine, previous, ready);
      }
      calls := calls + [call];
    }

    method HoldForShellCall(ready: Option<Ready>, start: Option<Start>)
      modifies this
      ensures State() == Step(old(State()), HoldForShell(ready, start))
    {
      var previous := held;
      gen := gen + 1;
      held := SessionOf(ready, None, start);
      if held.Some? {
        held := Some(held.value.(forShell := true));
      }
      withheld := true;
      signedOut := false;
      cookieFollows := true;
      retired := Unretired(retired, held);
      var call := Returned(Replaced(None));
      if previous.Some? && previous.value.token != "" {
        var at := Send(Remove(previous.value.port));
        call := HoldLeaving(previous.value, at);
      }
      calls := calls + [call];
    }

    method WithholdCall(retire: bool)
      modifies this
      ensures State() == Step(old(State()), Withhold(retire))
    {
      withheld := true;
      gen := gen + 1;
      if retire && held.Some? {
        retired := retired + {LocalOrigin(held.value.port)};
      }
      var call := Returned(NewGen(gen));
      if held.Some? && held.value.token != "" {
        var at := Send(Remove(held.value.port));
        call := WithholdForgetting(gen, at);
      }
      calls := calls + [call];
    }

    /** `lift`, as far as its write: what it answers at once, or the write it awaits. */
    method LiftNow(expected: nat, unretire: bool, start: Option<Start>) returns (call: Call)
      modifies this`retired, this`withheld, this`ops
      ensures State().(calls := old(calls) + [call]) == Step(old(State()), Lift(expected, unretire, start))
    {
      if signedOut || held.None? || gen != expected || !FromStart(held.value, start) {
        return Returned(Lifted(false));
      }
      if unretire {
        retired := retired - {LocalOrigin(held.value.port)};
      }
      if LocalOrigin(held.value.port) in retired {
        return Returned(Lifted(false));
      }
      if held.value.forShell || (held.value.token != "" && !WritesCookie(held.value)) {
        return Returned(Lifted(true));
      }
      if held.value.token == "" {
        withheld := false;
        return Returned(Lifted(true));
      }
      var at := Send(Write(held.value.port, held.value.token));
      return LiftWriting(expected, held.value, at);
    }

    method LiftCall(expected: nat, unretire: bool, start: Option<Start>)
      modifies this
      ensures State() == Step(old(State()), Lift(expected, unretire, start))
    {
      var call := LiftNow(expected, unretire, start);
      calls := calls + [call];
    }

    method EndCall(stamp: Stamp, defect: bool, retiredToo: bool)
      modifies this
      ensures State() == Step(old(State()), End(stamp, defect, retiredToo))
    {
      var call := Returned(Ended(false));
      if !signedOut && held.Some? && held.value.pair.Some? {
        var current := stamp.token == held.value.token && stamp.gen == gen;
        if !retiredToo && LocalOrigin(held.value.port) in retired {
          current := false;
        }
        if current {
          signedOut := true;
          call := Returned(Ended(true));
          if defect {
            held := Some(held.value.(pair := None));
            var at := Send(Remove(held.value.port));
            call := EndForgetting(at);
          }
        }
      }
      calls := calls + [call];
    }

    method ReleaseCall()
      modifies this
      ensures State() == Step(old(State()), Release)
    {
      var session := held;
      held := None;
      gen := gen + 1;
      var call := Returned(Released(None));
      if session.Some? && session.value.token != "" {
        var at := Send(Remove(session.value.port));
        call := ReleaseForgetting(session.value, at);
      }
      calls := calls + [call];
    }

    method RetireOriginCall(origin: Option<Origin>)
      modifies this`retired
      ensures State() == Step(old(State()), RetireOrigin(origin))
    {
      if origin.Some? && (held.None? || LocalOrigin(held.value.port) != origin.value) {
        retired := retired + {origin.value};
      }
    }

    method SetPairedCall(origins: set<Origin>)
      modifies this`paired
      ensures State() == Step(old(State()), SetPaired(origins))
    {
      paired := origins;
    }

    method CookieChangedCall(port: int, value: string, removed: bool)
      modifies this`cookieFollows
      ensures State() == Step(old(State()), CookieChanged(port, value, removed))
    {
      if held.Some? && port == held.value.port && !removed {
        cookieFollows := value == held.value.token;
      }
    }

    /** The store applies its oldest outstanding operation. */
    method OperationLands(ok: bool)
      modifies this`landed
      ensures State() == Step(old(State()), Lands(ok))
    {
      if |landed| < |ops| {
        landed := landed + [ok];
      }
    }

    /** The window's cookie taken back out, unless the session held now names the same cookie. */
    method SettleMovedWrite(session: Session) returns (at: Option<nat>)
      modifies this`ops
      ensures at.Some? <==> MustSettle(old(State()), session)
      ensures at.Some? ==> at.value == |old(ops)| && ops == old(ops) + [Remove(session.port)]
      ensures at.None? ==> ops == old(ops)
    {
      at := None;
      if held.None? || held.value.port != session.port {
        var issued := Send(Remove(session.port));
        at := Some(issued);
      }
    }

    /** Call *i* goes on, the operation it awaits having landed. */
    method ResumeCall(i: nat)
      modifies this
      ensures State() == Step(old(State()), Resume(i))
    {
      if i >= |calls| || calls[i].Returned? || calls[i].op >= |landed| {
        return;
      }
      var ok := landed[calls[i].op];
      var after := calls[i];
      match calls[i] {
        case AdoptLeaving(mine, previous, ready, _) =>
          after := AdoptRest(mine, Some(previous), ready);
        case AdoptWriting(mine, session, handed, _) =>
          after := Returned(Replaced(handed));
          if ok && gen == mine {
            withheld := false;
          } else if ok {
            var at := SettleMovedWrite(session);
            if at.Some? { after := AdoptSettling(handed, at.value); }
          }
        case AdoptSettling(handed, _) => after := Returned(Replaced(handed));
        case AdoptClearing(handed, _) => after := Returned(Replaced(handed));
        case HoldLeaving(previous, _) => after := Returned(Replaced(Handed(previous, held)));
        case WithholdForgetting(mine, _) => after := Returned(NewGen(mine));
        case LiftWriting(expected, session, _) =>
          after := Returned(Lifted(false));
          if ok && gen == expected {
            cookieFollows := true;
            withheld := false;
            after := Returned(Lifted(true));
          } else if ok {
            var at := SettleMovedWrite(session);
            if at.Some? { after := LiftSettling(at.value); }
          }
        case LiftSettling(_) => after := Returned(Lifted(false));
        case EndForgetting(_) => after := Returned(Ended(true));
        case ReleaseForgetting(session, _) => after := Returned(Released(Some(session)));
        case Returned(_) =>
      }
      calls := calls[i := after];
    }

    /** Whatever comes next. */
    method Take(event: Event)
      modifies this
      ensures State() == Step(old(State()), event)
    {
      match event
      case Adopt(ready, pair, start) => AdoptCall(ready, pair, start);
      case HoldForShell(ready, start) => HoldForShellCall(ready, start);
      case Withhold(retire) => WithholdCall(retire);
      case Lift(expected, unretire, start) => LiftCall(expected, unretire, start);
      case End(stamp, defect, retiredToo) => EndCall(stamp, defect, retiredToo);
      case Release => ReleaseCall();
      case RetireOrigin(origin) => RetireOriginCall(origin);
      case SetPaired(origins) => SetPairedCall(origins);
      case CookieChanged(port, value, removed) => CookieChangedCall(port, value, removed);
      case Lands(ok) => OperationLands(ok);
      case Resume(i) => ResumeCall(i);
    }
  }

  /** A record that went through any events the shell promises has a safe jar: one window cookie at most,
      and the held session's own unless a later operation on it is already issued. */
  method SignInThrough(events: seq<Event>) returns (record: Record)
    requires AllWelcome(events)
    ensures fresh(record) && record.State() == At(events, |events|)
    ensures |record.landed| <= |record.ops| && |JarNow(record.State())| <= 1
    ensures forall port | port in JarNow(record.State()) && NoneOwed(record.State(), port) ::
              && record.held.Some? && WritesCookie(record.held.value)
              && port == record.held.value.port && JarNow(record.State())[port] == record.held.value.token
  {
    record := new Record();
    for i := 0 to |events|
      invariant fresh(record) && record.State() == At(events, i)
    {
      record.Take(events[i]);
    }
    hide Step, JarNow, NoneOwed, WritesCookie;
    JarIsSafe(events, |events|, 0);
    forall port | port in JarNow(record.State()) && NoneOwed(record.State(), port)
      ensures record.held.Some? && WritesCookie(record.held.value)
              && port == record.held.value.port && JarNow(record.State())[port] == record.held.value.token
    {
      JarIsSafe(events, |events|, port);
    }
  }
}
