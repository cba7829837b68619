/**
 * The work a restart of the gateway cut off (desktop/trayPresence.js, carryPresence): what the menu says
 * after each poll of the gateway's lists of running and finished work.
 *
 * A poll may fail to read the lists, and may not know which start of the gateway it read.
 */
module Interrupted {
  import opened Options

  const INTERRUPTED_KEPT: nat := 20
  const INTERRUPTED_MS: nat := 600000

  datatype Row = Row(work: string, name: string)

  datatype Lists = Lists(running: seq<Row>, finished: seq<Row>)

  datatype Poll = Poll(lists: Option<Lists>, boot: Option<nat>, now: int)

  datatype Cut = Cut(row: Row, at: int)

  /** The last poll that read the lists of a known start: which start, and what ran. */
  datatype Basis = Basis(boot: Option<nat>, rows: seq<Row>)

  datatype Presence = Presence(running: seq<Row>, finished: seq<Row>, stale: bool, interrupted: seq<Cut>, basis: Basis)

  const EMPTY := Presence([], [], false, [], Basis(None, []))

  function Works(rows: seq<Row>): set<string> {
    set row <- rows :: row.work
  }

  function Known(lists: Lists): set<string> {
    Works(lists.running) + Works(lists.finished)
  }

  /** The rows nothing is known of, cut off at *at*. */
  function CutOff(rows: seq<Row>, known: set<string>, at: int): seq<Cut> {
    if rows == [] then []
    else
      var before, row := CutOff(rows[..|rows| - 1], known, at), rows[|rows| - 1];
      if row.work in known then before else before + [Cut(row, at)]
  }

  function Unknown(cuts: seq<Cut>, known: set<string>): seq<Cut> {
    if cuts == [] then []
    else
      var before, cut := Unknown(cuts[..|cuts| - 1], known), cuts[|cuts| - 1];
      if cut.row.work in known then before else before + [cut]
  }

  function Recent(cuts: seq<Cut>, now: int): seq<Cut> {
    if cuts == [] then []
    else
      var before, cut := Recent(cuts[..|cuts| - 1], now), cuts[|cuts| - 1];
      if now - cut.at < INTERRUPTED_MS then before + [cut] else before
  }

  function Newest(cuts: seq<Cut>): seq<Cut> {
    if |cuts| > INTERRUPTED_KEPT then cuts[..INTERRUPTED_KEPT] else cuts
  }

  predicate NewStart(was: Presence, poll: Poll) {
    poll.lists.Some? && poll.boot.Some? && was.basis.boot.Some? && was.basis.boot != poll.boot
  }

  function Arrivals(was: Presence, poll: Poll): seq<Cut> {
    if NewStart(was, poll) then CutOff(was.basis.rows, Known(poll.lists.value), poll.now) else []
  }

  function Said(was: Presence, poll: Poll): seq<Cut> {
    var all := if NewStart(was, poll) then Newest(Arrivals(was, poll) + was.interrupted) else was.interrupted;
    Recent(if poll.lists.Some? then Unknown(all, Known(poll.lists.value)) else all, poll.now)
  }

  function Carry(was: Presence, poll: Poll): Presence {
    match poll.lists
    case Some(lists) =>
      Presence(lists.running, lists.finished, false, Said(was, poll),
               if poll.boot.Some? then Basis(poll.boot, lists.running) else was.basis)
    case None =>
      Presence(was.running, was.finished, was.running != [] || was.finished != [], Said(was, poll), was.basis)
  }

  /** The same, a variable at a time. */
  method CarryPresence(was: Presence, poll: Poll) returns (out: Presence)
    ensures out == Carry(was, poll)
  {
    out := EMPTY;
    if poll.lists.Some? {
      out := out.(running := poll.lists.value.running, finished := poll.lists.value.finished);
    } else if |was.running| > 0 || |was.finished| > 0 {
      out := out.(running := was.running, finished := was.finished, stale := true);
    }
    var interrupted, basis := was.interrupted, was.basis;
    if poll.lists.Some? && poll.boot.Some? {
      if basis.boot.Some? && basis.boot != poll.boot {
        var cut := CutOff(basis.rows, Known(poll.lists.value), poll.now);
        interrupted := Newest(cut + interrupted);
      }
      basis := Basis(poll.boot, out.running);
    }
    if poll.lists.Some? {
      interrupted := Unknown(interrupted, Known(poll.lists.value));
    }
    out := out.(interrupted := Recent(interrupted, poll.now), basis := basis);
  }

  function After(polls: seq<Poll>, n: nat): Presence
    requires n <= |polls|
  {
    if n == 0 then EMPTY else Carry(After(polls, n - 1), polls[n - 1])
  }

  // ── The lists of cuts ──

  predicate Once(cuts: seq<Cut>) {
    forall i, j | 0 <= i < j < |cuts| :: cuts[i].row.work != cuts[j].row.work
  }

  predicate OnceEach(rows: seq<Row>) {
    forall i, j | 0 <= i < j < |rows| :: rows[i].work != rows[j].work
  }

  lemma {:induction false} CutOffHas(rows: seq<Row>, known: set<string>, at: int)
    ensures forall cut :: cut in CutOff(rows, known, at) <==> cut.at == at && cut.row in rows && cut.row.work !in known
  {
    if rows != [] {
      CutOffHas(rows[..|rows| - 1], known, at);
      assert rows == rows[..|rows| - 1] + [rows[|rows| - 1]];
    }
  }

  lemma {:induction false} UnknownHas(cuts: seq<Cut>, known: set<string>)
    ensures forall cut :: cut in Unknown(cuts, known) <==> cut in cuts && cut.row.work !in known
    ensures |Unknown(cuts, known)| <= |cuts|
  {
    if cuts != [] {
      UnknownHas(cuts[..|cuts| - 1], known);
      assert cuts == cuts[..|cuts| - 1] + [cuts[|cuts| - 1]];
    }
  }

  lemma {:induction false} RecentHas(cuts: seq<Cut>, now: int)
    ensures forall cut :: cut in Recent(cuts, now) <==> cut in cuts && now - cut.at < INTERRUPTED_MS
    ensures |Recent(cuts, now)| <= |cuts|
  {
    if cuts != [] {
      RecentHas(cuts[..|cuts| - 1], now);
      assert cuts == cuts[..|cuts| - 1] + [cuts[|cuts| - 1]];
    }
  }

  lemma OnceEnds(front: seq<Cut>, last: Cut)
    ensures Once(front + [last]) <==> Once(front) && forall cut <- front :: cut.row.work != last.row.work
  {
    var all := front + [last];
    assert forall i | 0 <= i < |front| :: all[i] == front[i];
    assert all[|front|] == last;
  }

  lemma {:induction false} CutOffOnce(rows: seq<Row>, known: set<string>, at: int)
    requires OnceEach(rows)
    ensures Once(CutOff(rows, known, at))
  {
    if rows != [] {
      var front, last := rows[..|rows| - 1], rows[|rows| - 1];
      CutOffOnce(front, known, at);
      CutOffHas(front, known, at);
      OnceEnds(CutOff(front, known, at), Cut(last, at));
      hide Once, CutOff;
      assert forall row <- front :: row.work != last.work;
    }
  }

  lemma {:induction false} UnknownOnce(cuts: seq<Cut>, known: set<string>)
    requires Once(cuts)
    ensures Once(Unknown(cuts, known))
  {
    if cuts != [] {
      hide Once;
      var front, last := cuts[..|cuts| - 1], cuts[|cuts| - 1];
      assert cuts == front + [last];
      OnceEnds(front, last);
      UnknownOnce(front, known);
      UnknownHas(front, known);
      OnceEnds(Unknown(front, known), last);
    }
  }

  lemma {:induction false} RecentOnce(cuts: seq<Cut>, now: int)
    requires Once(cuts)
    ensures Once(Recent(cuts, now))
  {
    if cuts != [] {
      hide Once;
      var front, last := cuts[..|cuts| - 1], cuts[|cuts| - 1];
      assert cuts == front + [last];
      OnceEnds(front, last);
      RecentOnce(front, now);
      RecentHas(front, now);
      OnceEnds(Recent(front, now), last);
    }
  }

  lemma JoinedOnce(arrivals: seq<Cut>, cuts: seq<Cut>)
    requires Once(arrivals) && Once(cuts)
    requires forall a <- arrivals, c <- cuts :: a.row.work != c.row.work
    ensures Once(arrivals + cuts)
  {
  }

  // ── What a run of polls says ──

  predicate Inv(s: Presence) {
    && Once(s.interrupted)
    && OnceEach(s.basis.rows)
    && |s.interrupted| <= INTERRUPTED_KEPT
    && (forall cut <- s.interrupted :: cut.row.work !in Works(s.basis.rows))
    && (forall cut <- s.interrupted :: cut.row.work !in Works(s.running) + Works(s.finished))
  }

  /** What a poll leaves said. */
  lemma SaidHas(was: Presence, poll: Poll)
    ensures forall cut <- Said(was, poll) ::
              && (cut in was.interrupted || cut in Arrivals(was, poll))
              && poll.now - cut.at < INTERRUPTED_MS
              && (poll.lists.Some? ==> cut.row.work !in Known(poll.lists.value))
    ensures |was.interrupted| <= INTERRUPTED_KEPT ==> |Said(was, poll)| <= INTERRUPTED_KEPT
  {
    var joined := Arrivals(was, poll) + was.interrupted;
    var all := if NewStart(was, poll) then Newest(joined) else was.interrupted;
    assert forall cut <- all :: cut in joined;
    hide Arrivals, Newest, Known;
    if poll.lists.Some? {
      UnknownHas(all, Known(poll.lists.value));
      RecentHas(Unknown(all, Known(poll.lists.value)), poll.now);
    } else {
      RecentHas(all, poll.now);
    }
  }

  lemma ArrivalsAre(was: Presence, poll: Poll)
    ensures forall cut :: cut in Arrivals(was, poll) <==>
              NewStart(was, poll) && cut.at == poll.now && cut.row in was.basis.rows && cut.row.work !in Known(poll.lists.value)
  {
    if NewStart(was, poll) {
      CutOffHas(was.basis.rows, Known(poll.lists.value), poll.now);
    }
  }

  lemma SaidOnce(was: Presence, poll: Poll)
    requires Inv(was)
    ensures Once(Said(was, poll))
  {
    var joined := Arrivals(was, poll) + was.interrupted;
    ArrivalsAre(was, poll);
    if NewStart(was, poll) {
      CutOffOnce(was.basis.rows, Known(poll.lists.value), poll.now);
      assert forall a <- Arrivals(was, poll) :: a.row.work in Works(was.basis.rows);
      JoinedOnce(Arrivals(was, poll), was.interrupted);
    }
    hide Arrivals, Known, Works;
    var all := if NewStart(was, poll) then Newest(joined) else was.interrupted;
    assert Once(all);
    hide Once, Newest;
    if poll.lists.Some? {
      UnknownOnce(all, Known(poll.lists.value));
      RecentOnce(Unknown(all, Known(poll.lists.value)), poll.now);
    } else {
      RecentOnce(all, poll.now);
    }
  }

  lemma CarryKeeps(was: Presence, poll: Poll)
    requires Inv(was) && (poll.lists.Some? ==> OnceEach(poll.lists.value.running))
    ensures Inv(Carry(was, poll))
  {
    SaidHas(was, poll);
    SaidOnce(was, poll);
    ArrivalsAre(was, poll);
    hide Said, Once, OnceEach, Works, Arrivals;
  }

  predicate GoodPolls(polls: seq<Poll>) {
    forall i | 0 <= i < |polls| :: polls[i].lists.Some? ==> OnceEach(polls[i].lists.value.running)
  }

  lemma {:induction false} RunKeeps(polls: seq<Poll>, n: nat)
    requires n <= |polls| && GoodPolls(polls)
    ensures Inv(After(polls, n))
  {
    hide Carry;
    if n > 0 {
      RunKeeps(polls, n - 1);
      CarryKeeps(After(polls, n - 1), polls[n - 1]);
    }
  }

  /** The last of the first *n* polls to read the lists. */
  function LastRead(polls: seq<Poll>, n: nat): Option<Lists>
    requires n <= |polls|
  {
    if n == 0 then None else if polls[n - 1].lists.Some? then polls[n - 1].lists else LastRead(polls, n - 1)
  }

  lemma {:induction false} RowsAreLastRead(polls: seq<Poll>, n: nat)
    requires n <= |polls|
    ensures var last, s := LastRead(polls, n), After(polls, n);
            && s.running == (if last.Some? then last.value.running else [])
            && s.finished == (if last.Some? then last.value.finished else [])
  {
    hide Said;
    if n > 0 {
      RowsAreLastRead(polls, n - 1);
    }
  }

  /** Over every run of polls whose lists name a piece of work once: the menu shows the rows last read,
      said as the last known when this poll did not read them; it says no work interrupted twice, nor any
      that the list last read shows live or ended, at most 20, and none of 10 minutes ago or more. */
  lemma SaysOnlyWhatIsTrue(polls: seq<Poll>, n: nat)
    requires 0 < n <= |polls| && GoodPolls(polls)
    ensures var s, last := After(polls, n), LastRead(polls, n);
            && Once(s.interrupted) && |s.interrupted| <= INTERRUPTED_KEPT
            && (forall cut <- s.interrupted :: polls[n - 1].now - cut.at < INTERRUPTED_MS)
            && (last.Some? ==> s.running == last.value.running && s.finished == last.value.finished)
            && (last.Some? ==> forall cut <- s.interrupted :: cut.row.work !in Known(last.value))
            && (s.stale <==> polls[n - 1].lists.None? && last.Some? && last.value != Lists([], []))
  {
    RunKeeps(polls, n);
    RowsAreLastRead(polls, n);
    RowsAreLastRead(polls, n - 1);
    SaidHas(After(polls, n - 1), polls[n - 1]);
    hide Said, Once, OnceEach, Works;
  }

  // ── Where what is said comes from ──

  /** The last of the first *n* polls to read the lists of a known start. */
  function LastKnown(polls: seq<Poll>, n: nat): (k: Option<nat>)
    requires n <= |polls|
    ensures k.Some? ==> k.value < n && polls[k.value].lists.Some? && polls[k.value].boot.Some?
    ensures k.Some? ==> forall j | k.value < j < n :: polls[j].lists.None? || polls[j].boot.None?
    ensures k.None? ==> forall j | 0 <= j < n :: polls[j].lists.None? || polls[j].boot.None?
  {
    if n == 0 then None
    else if polls[n - 1].lists.Some? && polls[n - 1].boot.Some? then Some(n - 1)
    else LastKnown(polls, n - 1)
  }

  lemma {:induction false} BasisIsLastKnown(polls: seq<Poll>, n: nat)
    requires n <= |polls|
    ensures var k := LastKnown(polls, n);
            After(polls, n).basis ==
              if k.None? then Basis(None, []) else Basis(polls[k.value].boot, polls[k.value].lists.value.running)
  {
    hide Said;
    if n > 0 {
      BasisIsLastKnown(polls, n - 1);
    }
  }

  /** Poll *m* cut *cut* off: it read a start other than the one last known to run the work, knew nothing
      of the work, and no poll since has. */
  predicate CutBy(polls: seq<Poll>, n: nat, cut: Cut, m: nat)
    requires n <= |polls|
  {
    m < n &&
    polls[m].lists.Some? && polls[m].boot.Some? && cut.at == polls[m].now &&
    var k := LastKnown(polls, m);
    k.Some? && polls[k.value].boot != polls[m].boot && cut.row in polls[k.value].lists.value.running &&
    forall j | m <= j < n :: polls[j].lists.Some? ==> cut.row.work !in Known(polls[j].lists.value)
  }

  lemma CutGoesOn(polls: seq<Poll>, n: nat, cut: Cut, m: nat)
    requires 0 < n <= |polls| && CutBy(polls, n - 1, cut, m)
    requires polls[n - 1].lists.Some? ==> cut.row.work !in Known(polls[n - 1].lists.value)
    ensures CutBy(polls, n, cut, m)
  {
    hide Known;
  }

  lemma ArrivalIsCut(polls: seq<Poll>, n: nat, cut: Cut)
    requires 0 < n <= |polls| && cut in Arrivals(After(polls, n - 1), polls[n - 1])
    ensures CutBy(polls, n, cut, n - 1)
  {
    hide Carry;
    ArrivalsAre(After(polls, n - 1), polls[n - 1]);
    BasisIsLastKnown(polls, n - 1);
    hide After, Arrivals, Known;
  }

  /** Over every run of polls: whatever is said as interrupted ran in the last poll that read an earlier
      start, was unknown to the first poll that read the next one, and has been unknown since. */
  lemma {:induction false} SaidWasCut(polls: seq<Poll>, n: nat, cut: Cut)
    requires n <= |polls| && cut in After(polls, n).interrupted
    ensures exists m :: CutBy(polls, n, cut, m)
  {
    var was, poll := After(polls, n - 1), polls[n - 1];
    SaidHas(was, poll);
    hide Said, Arrivals, Known, CutBy;
    if cut in was.interrupted {
      SaidWasCut(polls, n - 1, cut);
      var m :| CutBy(polls, n - 1, cut, m);
      CutGoesOn(polls, n, cut, m);
    } else {
      ArrivalIsCut(polls, n, cut);
    }
  }

  // ── When a cut is said no more ──

  lemma InFirst(cuts: seq<Cut>, i: nat)
    requires i < |cuts| && Once(cuts)
    ensures cuts[i] in Newest(cuts) <==> i < INTERRUPTED_KEPT
  {
    if i < INTERRUPTED_KEPT {
      assert cuts[i] == Newest(cuts)[i];
    }
  }

  /** A poll keeps saying a cut exactly while it neither lists its work nor comes 10 minutes after, and no
      20 newer ones push it out. */
  lemma StaysSaidExactlyWhen(was: Presence, poll: Poll, i: nat)
    requires Inv(was) && i < |was.interrupted|
    ensures var cut := was.interrupted[i];
            cut in Carry(was, poll).interrupted <==>
              && (poll.lists.Some? ==> cut.row.work !in Known(poll.lists.value))
              && poll.now - cut.at < INTERRUPTED_MS
              && (NewStart(was, poll) ==> |Arrivals(was, poll)| + i < INTERRUPTED_KEPT)
  {
    var arrivals := Arrivals(was, poll);
    var joined := arrivals + was.interrupted;
    assert joined[|arrivals| + i] == was.interrupted[i];
    if NewStart(was, poll) {
      ArrivalsAre(was, poll);
      CutOffOnce(was.basis.rows, Known(poll.lists.value), poll.now);
      assert forall a <- arrivals :: a.row.work in Works(was.basis.rows);
      JoinedOnce(arrivals, was.interrupted);
      InFirst(joined, |arrivals| + i);
    }
    hide Once, OnceEach, Newest, Arrivals, Known, Works;
    var all := if NewStart(was, poll) then Newest(joined) else was.interrupted;
    if poll.lists.Some? {
      UnknownHas(all, Known(poll.lists.value));
      RecentHas(Unknown(all, Known(poll.lists.value)), poll.now);
    } else {
      RecentHas(all, poll.now);
    }
  }

  /** And a poll of a new start begins to say every row that start knows nothing of, up to the 20 kept. */
  lemma NewlySaidExactlyWhen(was: Presence, poll: Poll, i: nat)
    requires Inv(was) && NewStart(was, poll) && i < |Arrivals(was, poll)|
    ensures Arrivals(was, poll)[i] in Carry(was, poll).interrupted <==> i < INTERRUPTED_KEPT
  {
    var arrivals, known := Arrivals(was, poll), Known(poll.lists.value);
    var joined := arrivals + was.interrupted;
    assert joined[i] == arrivals[i];
    ArrivalsAre(was, poll);
    CutOffOnce(was.basis.rows, known, poll.now);
    assert forall a <- arrivals :: a.row.work in Works(was.basis.rows);
    JoinedOnce(arrivals, was.interrupted);
    InFirst(joined, i);
    assert arrivals[i].at == poll.now && arrivals[i].row.work !in known;
    hide Once, OnceEach, Newest, Arrivals, Known, Works;
    UnknownHas(Newest(joined), known);
    RecentHas(Unknown(Newest(joined), known), poll.now);
  }

  lemma {:induction false} CutOffAt(rows: seq<Row>, known: set<string>, at: int, i: nat)
    requires i < |rows| && rows[i].work !in known
    ensures var cuts := CutOff(rows, known, at); |CutOff(rows[..i], known, at)| < |cuts| && cuts[|CutOff(rows[..i], known, at)|] == Cut(rows[i], at)
  {
    var front := rows[..|rows| - 1];
    if i < |front| {
      CutOffAt(front, known, at, i);
      assert front[..i] == rows[..i];
    }
  }

  /** Whatever a restart cut off is said at once, over every run of polls whose lists name a piece of work once:
      a row that ran in the last poll of the start before, and is unknown to the first that reads another start,
      is said as interrupted then, unless 20 rows listed before it are too. */
  lemma CutIsSaidAtOnce(polls: seq<Poll>, n: nat, i: nat)
    requires 0 < n <= |polls| && GoodPolls(polls)
    requires polls[n - 1].lists.Some? && polls[n - 1].boot.Some? && LastKnown(polls, n - 1).Some?
    requires var before := polls[LastKnown(polls, n - 1).value];
             && before.boot != polls[n - 1].boot && i < |before.lists.value.running|
             && before.lists.value.running[i].work !in Known(polls[n - 1].lists.value)
             && |CutOff(before.lists.value.running[..i], Known(polls[n - 1].lists.value), polls[n - 1].now)| < 20
    ensures var row := polls[LastKnown(polls, n - 1).value].lists.value.running[i];
            Cut(row, polls[n - 1].now) in After(polls, n).interrupted
  {
    var was, poll := After(polls, n - 1), polls[n - 1];
    BasisIsLastKnown(polls, n - 1);
    RunKeeps(polls, n - 1);
    CutOffAt(was.basis.rows, Known(poll.lists.value), poll.now, i);
    assert After(polls, n) == Carry(was, poll);
    hide After, Carry, Known;
    NewlySaidExactlyWhen(was, poll, |CutOff(was.basis.rows[..i], Known(poll.lists.value), poll.now)|);
  }

  // ── In which order ──

  predicate NewestAhead(cuts: seq<Cut>) {
    forall i, j | 0 <= i < j < |cuts| :: cuts[i].at >= cuts[j].at
  }

  lemma AheadEnds(front: seq<Cut>, last: Cut)
    ensures NewestAhead(front + [last]) <==> NewestAhead(front) && forall cut <- front :: cut.at >= last.at
  {
    var all := front + [last];
    assert forall i | 0 <= i < |front| :: all[i] == front[i];
    assert all[|front|] == last;
  }

  lemma {:induction false} UnknownAhead(cuts: seq<Cut>, known: set<string>)
    requires NewestAhead(cuts)
    ensures NewestAhead(Unknown(cuts, known))
  {
    if cuts != [] {
      hide NewestAhead;
      var front, last := cuts[..|cuts| - 1], cuts[|cuts| - 1];
      assert cuts == front + [last];
      AheadEnds(front, last);
      UnknownAhead(front, known);
      UnknownHas(front, known);
      AheadEnds(Unknown(front, known), last);
    }
  }

  lemma {:induction false} RecentAhead(cuts: seq<Cut>, now: int)
    requires NewestAhead(cuts)
    ensures NewestAhead(Recent(cuts, now))
  {
    if cuts != [] {
      hide NewestAhead;
      var front, last := cuts[..|cuts| - 1], cuts[|cuts| - 1];
      assert cuts == front + [last];
      AheadEnds(front, last);
      RecentAhead(front, now);
      RecentHas(front, now);
      AheadEnds(Recent(front, now), last);
    }
  }

  lemma SaidAhead(was: Presence, poll: Poll)
    requires NewestAhead(was.interrupted) && forall cut <- was.interrupted :: cut.at <= poll.now
    ensures NewestAhead(Said(was, poll)) && forall cut <- Said(was, poll) :: cut.at <= poll.now
  {
    ArrivalsAre(was, poll);
    SaidHas(was, poll);
    var joined := Arrivals(was, poll) + was.interrupted;
    assert forall i | 0 <= i < |Arrivals(was, poll)| :: Arrivals(was, poll)[i] in Arrivals(was, poll);
    assert NewestAhead(joined);
    var all := if NewStart(was, poll) then Newest(joined) else was.interrupted;
    assert NewestAhead(all);
    hide NewestAhead, Arrivals, Known;
    if poll.lists.Some? {
      UnknownAhead(all, Known(poll.lists.value));
      RecentAhead(Unknown(all, Known(poll.lists.value)), poll.now);
    } else {
      RecentAhead(all, poll.now);
    }
  }

  /** The newest are said first, over every run of polls on a clock that does not go back. */
  lemma {:induction false} NewestAreSaidFirst(polls: seq<Poll>, n: nat)
    requires n <= |polls| && forall i, j | 0 <= i < j < n :: polls[i].now <= polls[j].now
    ensures NewestAhead(After(polls, n).interrupted)
    ensures n > 0 ==> forall cut <- After(polls, n).interrupted :: cut.at <= polls[n - 1].now
  {
    hide Said;
    if n > 0 {
      NewestAreSaidFirst(polls, n - 1);
      SaidAhead(After(polls, n - 1), polls[n - 1]);
    }
  }
}
