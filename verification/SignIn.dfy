/**
 * The shell's sign-in to its own gateway (desktop/localSignIn.js), as atomic steps between awaits.
 *
 * A `World` is the record's own variables, the cookie store with the operations issued to it, and
 * every call made so far with the locals it is suspended with. `Step` is what one event does:
 * a call made by the shell (its synchronous part), the store applying its oldest outstanding
 * operation, or a suspended call going on once the operation it awaits has landed. `At` folds a
 * sequence of events, so a statement about `At(events, n)` for every sequence is a statement about
 * every interleaving.
 */
module SignIn {
  import opened Options
  import opened WindowTraffic

  // ── The values ──

  /** One start of a gateway, as a proof names it. */
  datatype Start = Start(pid: int, port: int, secretDigest: string)

  /** A ready line, or a door's answer shaped as one. Its url is always `LocalOrigin(port)`'s. */
  datatype Ready = Ready(port: int, token: string, windowDoor: bool)

  datatype Session = Session(
    port: int, token: string, pair: Option<string>, windowDoor: bool,
    start: Option<Start>, forShell: bool)

  datatype Stamp = Stamp(token: string, gen: nat)

  function SessionOf(ready: Option<Ready>, pair: Option<string>, start: Option<Start>): Option<Session> {
    match ready
    case None => None
    case Some(r) => Some(Session(r.port, r.token, if r.token != "" then pair else None, r.windowDoor, start, false))
  }

  predicate WritesCookie(session: Session) {
    session.token != "" && !session.forShell && (session.windowDoor ==> session.pair.Some?)
  }

  /** Whether *start* is the start *session* came from; a session that records none takes any. */
  predicate FromStart(session: Session, start: Option<Start>) {
    session.start.None? || session.start == start
  }

  /** Which session a sign-in hands back to be signed out, given the one held when it returns. */
  function Handed(previous: Session, held: Option<Session>): Option<Session> {
    if previous.token != "" && (held.None? || previous.token != held.value.token) then Some(previous) else None
  }

  // ── The cookie store ──

  /** An operation on the window's cookie for the gateway on *port* (`pc_token_<port>`). */
  datatype Op = Remove(port: int) | Write(port: int, token: string)

  type Jar = map<int, string>

  function Apply(jar: Jar, op: Op): Jar {
    match op
    case Remove(port) => jar - {port}
    case Write(port, token) => jar[port := token]
  }

  /** The jar once *ops*, in order, have all taken effect. */
  function JarAfter(ops: seq<Op>): Jar {
    if ops == [] then map[] else Apply(JarAfter(ops[..|ops| - 1]), ops[|ops| - 1])
  }

  /** The jar once the landed operations have, each only if it did not fail. */
  function JarOf(ops: seq<Op>, landed: seq<bool>): Jar
    requires |landed| <= |ops|
  {
    if landed == [] then map[] else
    var n := |landed| - 1;
    var before := JarOf(ops, landed[..n]);
    if landed[n] then Apply(before, ops[n]) else before
  }

  // ── Suspended calls ──

  datatype Result =
    | Replaced(session: Option<Session>)
    | NewGen(gen: nat)
    | Lifted(lifted: bool)
    | Ended(ended: bool)
    | Released(session: Option<Session>)

  /** A call where it stands: awaiting the store's operation *op* with its captured locals, or back. */
  datatype Call =
    | AdoptLeaving(mine: nat, previous: Session, ready: Option<Ready>, op: nat)
    | AdoptWriting(mine: nat, session: Session, handed: Option<Session>, op: nat)
    | AdoptSettling(handed: Option<Session>, op: nat)
    | AdoptClearing(handed: Option<Session>, op: nat)
    | HoldLeaving(previous: Session, op: nat)
    | WithholdForgetting(mine: nat, op: nat)
    | LiftWriting(expected: nat, session: Session, op: nat)
    | LiftSettling(op: nat)
    | EndForgetting(op: nat)
    | ReleaseForgetting(session: Session, op: nat)
    | Returned(result: Result)

  datatype World = World(
    held: Option<Session>, withheld: bool, gen: nat, signedOut: bool, cookieFollows: bool,
    retired: set<Origin>, paired: set<Origin>,
    ops: seq<Op>, landed: seq<bool>, calls: seq<Call>)

  const Init := World(None, false, 0, false, true, {}, {}, [], [], [])

  datatype Event =
    | Adopt(ready: Option<Ready>, pair: Option<string>, start: Option<Start>)
    | HoldForShell(ready: Option<Ready>, start: Option<Start>)
    | Withhold(retire: bool)
    | Lift(expected: nat, unretire: bool, start: Option<Start>)
    | End(stamp: Stamp, defect: bool, retiredToo: bool)
    | Release
    | RetireOrigin(origin: Option<Origin>)
    | SetPaired(origins: set<Origin>)
    | CookieChanged(port: int, value: string, removed: bool)
    | Lands(ok: bool)
    | Resume(call: nat)

  // ── What each call does, up to its first await ──

  /** Issue *op* to the store. */
  function Issue(w: World, op: Op): World {
    w.(ops := w.ops + [op])
  }

  /** Make a call that stands at *call* from now on. */
  function Suspend(w: World, call: Call): World {
    w.(calls := w.calls + [call])
  }

  /** A call was made, standing after every earlier one; *moves* says whether the generation moved. */
  predicate OneMoreCall(w: World, next: World, moves: bool) {
    && |next.calls| == |w.calls| + 1 && (forall i | 0 <= i < |w.calls| :: next.calls[i] == w.calls[i])
    && next.landed == w.landed
    && next.gen == w.gen + (if moves then 1 else 0)
  }

  function Unretired(retired: set<Origin>, held: Option<Session>): set<Origin> {
    if held.Some? then retired - {LocalOrigin(held.value.port)} else retired
  }

  predicate HeldRetired(w: World) {
    w.held.Some? && LocalOrigin(w.held.value.port) in w.retired
  }

  predicate Moves(previous: Option<Session>, held: Option<Session>) {
    previous.Some? && (held.None? || previous.value.port != held.value.port)
  }

  /** `adopt`, from after the session it replaced has left the jar. */
  function AdoptOn(w: World, mine: nat, previous: Option<Session>, ready: Option<Ready>): (World, Call) {
    var handed := if previous.Some? then Handed(previous.value, w.held) else None;
    if w.gen != mine then (w, Returned(Replaced(handed)))
    else if w.held.Some? && WritesCookie(w.held.value) then
      var session := w.held.value;
      (Issue(w, Write(session.port, session.token)), AdoptWriting(mine, session, handed, |w.ops|))
    else if w.held.Some? && w.held.value.token != "" then
      var out := w.(withheld := true);
      if previous.Some? && previous.value.token != "" && previous.value.port == w.held.value.port then
        (Issue(out, Remove(previous.value.port)), AdoptClearing(handed, |w.ops|))
      else (out, Returned(Replaced(handed)))
    else if ready.Some? then (w.(withheld := false), Returned(Replaced(handed)))
    else (w, Returned(Replaced(handed)))
  }

  function DoAdopt(w: World, ready: Option<Ready>, pair: Option<string>, start: Option<Start>): (next: World)
    ensures OneMoreCall(w, next, true)
  {
    var held := SessionOf(ready, pair, start);
    var w1 := w.(gen := w.gen + 1, held := held, signedOut := false, cookieFollows := true,
                 retired := Unretired(w.retired, held));
    if Moves(w.held, held) then
      Suspend(Issue(w1, Remove(w.held.value.port)), AdoptLeaving(w.gen + 1, w.held.value, ready, |w.ops|))
    else
      var (w2, call) := AdoptOn(w1, w.gen + 1, w.held, ready);
      Suspend(w2, call)
  }

  function DoHoldForShell(w: World, ready: Option<Ready>, start: Option<Start>): (next: World)
    ensures OneMoreCall(w, next, true)
  {
    var session := SessionOf(ready, None, start);
    var held := if session.Some? then Some(session.value.(forShell := true)) else None;
    var w1 := w.(gen := w.gen + 1, held := held, withheld := true, signedOut := false, cookieFollows := true,
                 retired := Unretired(w.retired, held));
    if w.held.Some? && w.held.value.token != "" then
      Suspend(Issue(w1, Remove(w.held.value.port)), HoldLeaving(w.held.value, |w.ops|))
    else Suspend(w1, Returned(Replaced(None)))
  }

  function DoWithhold(w: World, retire: bool): (next: World)
    ensures OneMoreCall(w, next, true)
  {
    var w1 := w.(withheld := true, gen := w.gen + 1,
                 retired := if retire && w.held.Some? then w.retired + {LocalOrigin(w.held.value.port)} else w.retired);
    if w.held.Some? && w.held.value.token != "" then
      Suspend(Issue(w1, Remove(w.held.value.port)), WithholdForgetting(w.gen + 1, |w.ops|))
    else Suspend(w1, Returned(NewGen(w.gen + 1)))
  }

  function DoLift(w: World, expected: nat, unretire: bool, start: Option<Start>): (next: World)
    ensures OneMoreCall(w, next, false)
  {
    if w.signedOut || w.held.None? || w.gen != expected || !FromStart(w.held.value, start) then
      Suspend(w, Returned(Lifted(false)))
    else
      var session := w.held.value;
      var w1 := if unretire then w.(retired := w.retired - {LocalOrigin(session.port)}) else w;
      if HeldRetired(w1) then Suspend(w1, Returned(Lifted(false)))
      else if session.forShell || (session.token != "" && !WritesCookie(session)) then
        Suspend(w1, Returned(Lifted(true)))
      else if session.token == "" then Suspend(w1.(withheld := false), Returned(Lifted(true)))
      else Suspend(Issue(w1, Write(session.port, session.token)), LiftWriting(expected, session, |w.ops|))
  }

  predicate IsCurrent(w: World, stamp: Stamp) {
    w.held.Some? && stamp.token == w.held.value.token && stamp.gen == w.gen && !HeldRetired(w)
  }

  function DoEnd(w: World, stamp: Stamp, defect: bool, retiredToo: bool): (next: World)
    ensures OneMoreCall(w, next, false)
  {
    if w.signedOut || w.held.None? || w.held.value.pair.None? then Suspend(w, Returned(Ended(false)))
    else if !(if retiredToo then stamp.token == w.held.value.token && stamp.gen == w.gen else IsCurrent(w, stamp)) then
      Suspend(w, Returned(Ended(false)))
    else
      var w1 := w.(signedOut := true);
      if defect then
        Suspend(Issue(w1.(held := Some(w.held.value.(pair := None))), Remove(w.held.value.port)), EndForgetting(|w.ops|))
      else Suspend(w1, Returned(Ended(true)))
  }

  function DoRelease(w: World): (next: World)
    ensures OneMoreCall(w, next, true)
  {
    var w1 := w.(held := None, gen := w.gen + 1);
    if w.held.Some? && w.held.value.token != "" then
      Suspend(Issue(w1, Remove(w.held.value.port)), ReleaseForgetting(w.held.value, |w.ops|))
    else Suspend(w1, Returned(Released(None)))
  }

  function DoRetireOrigin(w: World, origin: Option<Origin>): World {
    if origin.Some? && (w.held.None? || LocalOrigin(w.held.value.port) != origin.value) then
      w.(retired := w.retired + {origin.value})
    else w
  }

  /** A cookie of the held origin's host and path changed in the jar. */
  function DoCookieChanged(w: World, port: int, value: string, removed: bool): World {
    if w.held.Some? && port == w.held.value.port && !removed then w.(cookieFollows := value == w.held.value.token) else w
  }

  function DoLands(w: World, ok: bool): World {
    if |w.landed| < |w.ops| then w.(landed := w.landed + [ok]) else w
  }

  // ── What a suspended call does once its operation has landed ──

  /** Whether the session of a write that saw the generation move no longer names the held cookie. */
  predicate MustSettle(w: World, session: Session) {
    w.held.None? || w.held.value.port != session.port
  }

  function GoOn(w: World, call: Call, ok: bool): (World, Call) {
    match call
    case AdoptLeaving(mine, previous, ready, _) => AdoptOn(w, mine, Some(previous), ready)
    case AdoptWriting(mine, session, handed, _) =>
      if !ok then (w, Returned(Replaced(handed)))
      else if w.gen == mine then (w.(withheld := false), Returned(Replaced(handed)))
      else if MustSettle(w, session) then (Issue(w, Remove(session.port)), AdoptSettling(handed, |w.ops|))
      else (w, Returned(Replaced(handed)))
    case AdoptSettling(handed, _) => (w, Returned(Replaced(handed)))
    case AdoptClearing(handed, _) => (w, Returned(Replaced(handed)))
    case HoldLeaving(previous, _) => (w, Returned(Replaced(Handed(previous, w.held))))
    case WithholdForgetting(mine, _) => (w, Returned(NewGen(mine)))
    case LiftWriting(expected, session, _) =>
      if !ok then (w, Returned(Lifted(false)))
      else if w.gen == expected then (w.(cookieFollows := true, withheld := false), Returned(Lifted(true)))
      else if MustSettle(w, session) then (Issue(w, Remove(session.port)), LiftSettling(|w.ops|))
      else (w, Returned(Lifted(false)))
    case LiftSettling(_) => (w, Returned(Lifted(false)))
    case EndForgetting(_) => (w, Returned(Ended(true)))
    case ReleaseForgetting(session, _) => (w, Returned(Released(Some(session))))
    case Returned(_) => (w, call)
  }

  predicate CanGoOn(w: World, i: nat) {
    i < |w.calls| && !w.calls[i].Returned? && w.calls[i].op < |w.landed|
  }

  function DoResume(w: World, i: nat): World {
    if !CanGoOn(w, i) then w
    else
      var (w1, call) := GoOn(w, w.calls[i], w.landed[w.calls[i].op]);
      w1.(calls := w.calls[i := call])
  }

  function Step(w: World, event: Event): World {
    match event
    case Adopt(ready, pair, start) => DoAdopt(w, ready, pair, start)
    case HoldForShell(ready, start) => DoHoldForShell(w, ready, start)
    case Withhold(retire) => DoWithhold(w, retire)
    case Lift(expected, unretire, start) => DoLift(w, expected, unretire, start)
    case End(stamp, defect, retiredToo) => DoEnd(w, stamp, defect, retiredToo)
    case Release => DoRelease(w)
    case RetireOrigin(origin) => DoRetireOrigin(w, origin)
    case SetPaired(origins) => w.(paired := origins)
    case CookieChanged(port, value, removed) => DoCookieChanged(w, port, value, removed)
    case Lands(ok) => DoLands(w, ok)
    case Resume(i) => DoResume(w, i)
  }

  /** The world after the first *n* of *events*. */
  function At(events: seq<Event>, n: nat): World
    requires n <= |events|
  {
    if n == 0 then Init else Step(At(events, n - 1), events[n - 1])
  }

  /** The window's jar as it is now. */
  function JarNow(w: World): Jar
    requires |w.landed| <= |w.ops|
  {
    JarOf(w.ops, w.landed)
  }

  /** What `trafficState` says to `decide`. */
  function TrafficState(w: World): Traffic {
    var origin := if w.held.Some? then Some(LocalOrigin(w.held.value.port)) else None;
    Traffic(
      origin, if w.held.Some? then w.held.value.pair else None, w.withheld, w.retired,
      (set o | o in w.paired && Some(o) != origin && o !in w.retired), w.cookieFollows)
  }
}
