/**
 * What each press and each answer brings the updater: when a copy becomes ready, when it goes, when it is
 * staged, what a check offers, and that an update nothing stops ends with its copy ready.
 */
module UpdaterPresses {
  import opened Options
  import opened Versions
  import opened Releases
  import opened Updater

  // ── What is downloaded names its version ──

  predicate Named(task: Task) {
    task.Streaming? || task.Preparing? ==> task.release.version.Some?
  }

  ghost predicate AllNamed(s: State) {
    forall i | 0 <= i < |s.tasks| :: Named(s.tasks[i])
  }

  lemma FetchedNames(s: State, i: nat, releases: Option<seq<Release>>, assetOk: bool)
    requires AllNamed(s)
    ensures AllNamed(DoFetched(s, i, releases, assetOk))
  {
    if At(s, i).Fetching? && releases.Some? {
      PickedIsFirst(releases.value, At(s, i).version);
    }
    hide Picked, SameVersion;
  }

  lemma DownloadNames(s: State, event: Event)
    requires AllNamed(s) && (event.Streamed? || event.Prepared?)
    ensures AllNamed(Step(s, event))
  {
    hide DoCheck, DoListed, DoDownload, DoFinish, DoPlaced, DoFetched;
  }

  lemma OtherNames(s: State, event: Event)
    requires AllNamed(s) && !event.Fetched?
    ensures AllNamed(Step(s, event))
  {
    if event.Streamed? || event.Prepared? {
      DownloadNames(s, event);
      hide Step, AllNamed;
    }
    hide Choose, Picked, StillAllowed, SameVersion, MayFinish, MayDownload, DoFetched, DoStreamed, DoPrepared;
  }

  lemma {:induction false} RunNames(events: seq<Event>, n: nat)
    requires n <= |events|
    ensures AllNamed(Run(events, n))
  {
    hide Step;
    if n > 0 {
      RunNames(events, n - 1);
      var s, event := Run(events, n - 1), events[n - 1];
      if event.Fetched? {
        assert Step(s, event) == DoFetched(s, event.task, event.releases, event.assetOk) by { StepFetched(s, event); }
        FetchedNames(s, event.task, event.releases, event.assetOk);
      } else {
        OtherNames(s, event);
      }
    }
  }

  lemma StepFetched(s: State, event: Event)
    requires event.Fetched?
    ensures Step(s, event) == DoFetched(s, event.task, event.releases, event.assetOk)
  {
    hide DoFetched;
  }

  // ── When a copy becomes ready, and when it goes ──

  /** The release of the download whose last check *event* ends well, the app not stopping. */
  function MadeReady(s: State, event: Event): Option<(nat, Release)> {
    match event
    case Prepared(i, ok) =>
      if ok && !s.stopping && i < |s.tasks| && s.tasks[i].Preparing? then Some((s.tasks[i].dir, s.tasks[i].release)) else None
    case Streamed(i, ok, mac) =>
      if ok && !mac && !s.stopping && i < |s.tasks| && s.tasks[i].Streaming? then Some((s.tasks[i].dir, s.tasks[i].release)) else None
    case _ => None
  }

  lemma MakesReady(s: State, event: Event)
    requires AllNamed(s)
    ensures var made, next := MadeReady(s, event), Step(s, event);
            made.Some? ==>
              && made.value.1.version.Some?
              && next.readyCopy == Some(ReadyCopy(made.value.0, made.value.1.version.value, made.value.1))
              && next.phase == Ready && next.ready == made.value.1.version
              && !next.busy && next.activeDir.None? && next.dirs == s.dirs && next.offer == s.offer
              && next.tasks == s.tasks[event.task := Over]
  {
  }

  /** A ready copy goes: dropped by a check or at Restart to finish when the settings no longer allow it, when
      it is not there or is another than was checked, once it is placed or could not be, and at the stop. */
  predicate LosesReady(s: State, event: Event)
    requires s.readyCopy.Some?
  {
    match event
    case Check(_, current, first, _) => !s.busy && !StillAllowed(s.readyCopy.value, current, first)
    case Finish(version, current, rules, _, copy, still) =>
      && !s.stopping && !s.busy && SameVersion(Some(s.readyCopy.value.version), version)
      && (!StillAllowed(s.readyCopy.value, current, rules) || copy.CopyGone? || !still.CopyOk?)
    case Placed(i, ok) => i < |s.tasks| && s.tasks[i].Copying? && !(ok && s.stopping)
    case Stop => true
    case _ => false
  }

  lemma ReadyStays(s: State, event: Event)
    requires s.readyCopy.Some? && MadeReady(s, event).None?
    ensures Step(s, event).readyCopy == if LosesReady(s, event) then None else s.readyCopy
  {
    hide Choose, Picked, StillAllowed, SameVersion;
  }

  lemma NoneReady(s: State, event: Event)
    requires s.readyCopy.None? && MadeReady(s, event).None? && AllNamed(s)
    ensures Step(s, event).readyCopy.None?
  {
    hide Choose, Picked, StillAllowed, SameVersion;
  }

  /** When a copy is ready, over every run: it becomes so exactly at the event that ends a running download's
      last check with success while the app is not stopping, and is then that download's, in its folder, of
      the release picked, said as ready with Restart to finish possible; it stays exactly until it goes. */
  lemma ReadyExactlyWhen(events: seq<Event>, n: nat)
    requires n < |events|
    ensures var s, next, made := Run(events, n), Run(events, n + 1), MadeReady(Run(events, n), events[n]);
            && (made.Some? ==> s.readyCopy.None? && made.value.1.version.Some?)
            && next.readyCopy ==
                 (if made.Some? then Some(ReadyCopy(made.value.0, made.value.1.version.value, made.value.1))
                  else if s.readyCopy.Some? && !LosesReady(s, events[n]) then s.readyCopy else None)
            && (made.Some? ==>
                  next.phase == Ready && next.ready == made.value.1.version && made.value.0 in next.dirs
                  && MayFinish(next, made.value.1.version))
  {
    var s, made := Run(events, n), MadeReady(Run(events, n), events[n]);
    RunNames(events, n);
    RunKeeps(events, n);
    RunKeeps(events, n + 1);
    assert Run(events, n + 1) == Step(s, events[n]);
    hide Run, Step, AllNamed, LosesReady;
    if made.Some? {
      MakesReady(s, events[n]);
      assert IsActive(s.tasks[events[n].task]);
      assert Fits(s, s.tasks[events[n].task]);
      OwnVersion(made.value.1.version.value);
    } else if s.readyCopy.Some? {
      ReadyStays(s, events[n]);
    } else {
      NoneReady(s, events[n]);
    }
  }

  lemma OwnVersion(v: Version)
    ensures SameVersion(Some(v), Some(v))
  {
    OrderIsTotalPreorder(v, v, v);
  }

  // ── When a copy is staged ──

  /** A copy is staged exactly when its placement beside the app ends well while the app is not stopping; it is
      that copy, its private folder gone, nothing ready any more, the updater held until the quit; and it
      stays staged until the swap takes it. */
  lemma StagedExactlyWhen(events: seq<Event>, n: nat)
    requires n < |events|
    ensures var s, next := Run(events, n), Run(events, n + 1);
            && (if PlacedWell(s, events[n])
                then
                  var copy := s.tasks[events[n].task].copy;
                  && next.staged == Some(copy) && s.readyCopy == Some(copy) && next.readyCopy.None? && next.ready.None?
                  && next.phase == Restarting && next.busy && next.dirs == {} && copy.dir in next.beside
                else next.staged == if events[n].TakeStaged? then None else s.staged)
            && (events[n].TakeStaged? && s.staged.Some? ==> next.taken && next.beside == {})
  {
    var s := Run(events, n);
    RunKeeps(events, n);
    assert Run(events, n + 1) == Step(s, events[n]);
    hide Run;
    if PlacedWell(s, events[n]) {
      assert IsActive(s.tasks[events[n].task]);
      assert Fits(s, s.tasks[events[n].task]);
    } else if events[n].TakeStaged? {
      StagedIsLoose(s);
    } else {
      StagedStays(s, events[n]);
      hide Step;
    }
  }

  predicate PlacedWell(s: State, event: Event) {
    event.Placed? && event.ok && !s.stopping && event.task < |s.tasks| && s.tasks[event.task].Copying?
  }

  lemma StagedIsLoose(s: State)
    requires Inv(s)
    ensures s.staged.Some? ==> s.beside == {s.staged.value.dir}
  {
    if SomeActive(s) {
      var i :| 0 <= i < |s.tasks| && IsActive(s.tasks[i]);
      assert Fits(s, s.tasks[i]);
    }
  }

  lemma StagedStays(s: State, event: Event)
    requires !PlacedWell(s, event) && !event.TakeStaged?
    ensures Step(s, event).staged == s.staged
  {
    hide Choose, Picked, StillAllowed, SameVersion;
  }

  // ── What is on offer ──

  /** What the settings read allow of a ready copy: a release eligible under them, or the pin's, newer than
      this copy; and nothing when they cannot be read. */
  lemma StillAllowedExactlyWhen(copy: ReadyCopy, current: Option<Version>, settings: Settings)
    ensures StillAllowed(copy, current, settings) <==>
              settings.rules.Some? &&
              match settings.rules.value.pin
              case NoPin => Eligible(copy.release, current, settings.rules.value.beta)
              case PinTo(pin) => Usable(copy.release) && SameVersion(copy.release.version, pin) && Newer(copy.release.version, current)
  {
    if settings.rules.Some? {
      ReadyAllowedExactlyWhen(copy.release, current, settings.rules.value);
    }
  }

  /** A check goes on to ask for the list: asked for by hand or allowed by the settings, which can be read. */
  predicate AsksForList(s: State, event: Event) {
    match event
    case Check(asked, current, first, second) =>
      !s.busy &&
      (if s.readyCopy.None? then first.rules.Some? && (asked || first.checkEnabled)
       else !StillAllowed(s.readyCopy.value, current, first) && second.rules.Some? && (asked || second.checkEnabled))
    case Finish(version, current, rules, after, _, _) =>
      Drops(s, event) && after.rules.Some? && after.checkEnabled
    case _ => false
  }

  /** A ready copy is dropped with its offer, the settings no longer allowing it. */
  predicate Drops(s: State, event: Event) {
    && s.readyCopy.Some? && !s.busy
    && match event
       case Check(_, current, first, _) => !StillAllowed(s.readyCopy.value, current, first)
       case Finish(version, current, rules, _, _, _) =>
         !s.stopping && SameVersion(Some(s.readyCopy.value.version), version) && !StillAllowed(s.readyCopy.value, current, rules)
       case _ => false
  }

  /** A check that finds the settings unreadable says so, and takes the offer away. */
  predicate FindsUnreadable(s: State, event: Event) {
    match event
    case Check(_, _, first, second) =>
      !s.busy && (if s.readyCopy.None? then first.rules.None? else Drops(s, event) && second.rules.None?)
    case Finish(_, _, _, after, _, _) => Drops(s, event) && after.rules.None?
    case _ => false
  }

  /** The list a check waits for is there to be judged: no update started meanwhile. */
  predicate Judges(s: State, event: Event) {
    event.Listed? && event.task < |s.tasks| && s.tasks[event.task].Listing? && !s.busy && s.readyCopy.None?
  }

  /** What is on offer, after any event: what the list judged leaves to choose under the settings the check
      read; nothing once a copy is dropped or the settings cannot be read; else what was. */
  lemma OfferExactly(s: State, event: Event)
    ensures Step(s, event).offer ==
              if Judges(s, event) && event.releases.Some? then
                match Choose(event.releases.value, event.current, s.tasks[event.task].rules)
                case Offer(release) =>
                  (if release.version.Some? then Some(OnOffer(release.version.value, event.installable)) else s.offer)
                case Nothing(_) => None
              else if Drops(s, event) || FindsUnreadable(s, event) then None
              else s.offer
  {
    if event.Fetched? || event.Streamed? || event.Prepared? {
      DownloadLeavesTheRest(s, event);
      hide Step;
    } else if event.Check? || event.Finish? {
      hide DoListed, DoFetched, DoStreamed, DoPrepared, DoPlaced, DoDownload, DoAbandon, DoTakeStaged;
    } else {
      hide DoCheck, DoFinish, DoFetched, DoStreamed, DoPrepared;
    }
    hide Choose, Picked, StillAllowed, SameVersion;
  }

  /** A download's own steps leave the offer, the stop and what is staged alone. */
  lemma DownloadLeavesTheRest(s: State, event: Event)
    requires event.Fetched? || event.Streamed? || event.Prepared?
    ensures var next := Step(s, event);
            next.offer == s.offer && next.stopping == s.stopping && next.staged == s.staged && |next.tasks| == |s.tasks|
  {
    hide Picked;
    if event.Fetched? {
      FetchedLeaves(s, event);
    } else if event.Streamed? {
      StreamedLeaves(s, event);
    } else {
      PreparedLeaves(s, event);
    }
    hide DoFetched, DoStreamed, DoPrepared;
  }

  lemma FetchedLeaves(s: State, event: Event)
    requires event.Fetched?
    ensures var next := DoFetched(s, event.task, event.releases, event.assetOk);
            next.offer == s.offer && next.stopping == s.stopping && next.staged == s.staged && |next.tasks| == |s.tasks|
  {
    hide Picked;
  }

  lemma StreamedLeaves(s: State, event: Event)
    requires event.Streamed?
    ensures var next := DoStreamed(s, event.task, event.ok, event.mac);
            next.offer == s.offer && next.stopping == s.stopping && next.staged == s.staged && |next.tasks| == |s.tasks|
  {
  }

  lemma PreparedLeaves(s: State, event: Event)
    requires event.Prepared?
    ensures var next := DoPrepared(s, event.task, event.ok);
            next.offer == s.offer && next.stopping == s.stopping && next.staged == s.staged && |next.tasks| == |s.tasks|
  {
  }

  /** And it is the newest release the settings make eligible, or the pin's: never an unreadable tag's. */
  lemma ListedOffersTheChosen(s: State, event: Event)
    requires Judges(s, event) && event.releases.Some? && event.current.Some?
    ensures var next, rules := Step(s, event), s.tasks[event.task].rules;
            match Choose(event.releases.value, event.current, rules)
            case Offer(release) =>
              && next.phase == Available && release in event.releases.value && release.version.Some?
              && next.offer == Some(OnOffer(release.version.value, event.installable))
            case Nothing(why) => next.offer.None? && next.phase == if why == Current then Latest else Failed
  {
    var rules := s.tasks[event.task].rules;
    match rules.pin
    case NoPin =>
      OffersTheNewestEligible(event.releases.value, event.current, rules.beta);
      assert rules == Rules(rules.beta, NoPin);
      hide Choose, Eligible, Newer;
    case PinTo(pin) =>
      OffersOnlyThePin(event.releases.value, event.current, rules.beta, pin);
      assert rules == Rules(rules.beta, PinTo(pin));
      hide Choose, Eligible, Newer, SameVersion;
  }

  // ── What begins, and what ends ──

  /** A placement begins: Restart to finish for the ready version, still allowed and still as it was checked. */
  predicate Places(s: State, event: Event) {
    && event.Finish? && !s.stopping && !s.busy && s.readyCopy.Some?
    && SameVersion(Some(s.readyCopy.value.version), event.version)
    && StillAllowed(s.readyCopy.value, event.current, event.rules) && !event.copy.CopyGone? && event.still.CopyOk?
  }

  /** A download begins: Update for the version on offer, installable here, with nothing under way or ready. */
  predicate Downloads(s: State, event: Event) {
    && event.Download? && !s.stopping && !s.busy && s.readyCopy.None?
    && s.offer.Some? && SameVersion(Some(s.offer.value.version), event.version) && s.offer.value.installable
    && event.dirMade
  }

  /** The work an event begins. */
  function Begun(s: State, event: Event): Option<Task> {
    if Downloads(s, event) then Some(Fetching(s.nextDir, event.version))
    else if Places(s, event) then Some(Copying(s.readyCopy.value))
    else if AsksForList(s, event) then
      Some(Listing(if event.Finish? then event.after.rules.value
                   else if s.readyCopy.None? then event.first.rules.value else event.second.rules.value))
    else None
  }

  /** The event is what work *i* waits for. */
  predicate IsAnswerTo(s: State, event: Event, i: nat) {
    && i < |s.tasks|
    && match s.tasks[i]
       case Listing(_) => event.Listed? && event.task == i
       case Fetching(_, _) => event.Fetched? && event.task == i
       case Streaming(_, _) => event.Streamed? && event.task == i
       case Preparing(_, _) => event.Prepared? && event.task == i
       case Copying(_) => event.Placed? && event.task == i
       case Over => false
  }

  function StepsLeft(task: Task): nat {
    match task
    case Fetching(_, _) => 3
    case Streaming(_, _) => 2
    case Over => 0
    case _ => 1
  }

  /** Work begins exactly at its press, and only what it waits for brings it on, nearer to its end each time;
      work that is not over always waits for something. */
  lemma WorkGoesOn(s: State, event: Event, i: nat)
    ensures var next, begun := Step(s, event), Begun(s, event);
            && |next.tasks| == |s.tasks| + (if begun.Some? then 1 else 0)
            && (begun.Some? ==> next.tasks[|s.tasks|] == begun.value)
            && (i < |s.tasks| ==>
                  if IsAnswerTo(s, event, i) then StepsLeft(next.tasks[i]) < StepsLeft(s.tasks[i]) else next.tasks[i] == s.tasks[i])
    ensures i < |s.tasks| ==> (StepsLeft(s.tasks[i]) == 0 <==> s.tasks[i].Over?)
  {
    if event.Fetched? || event.Streamed? || event.Prepared? {
      DownloadStepsOn(s, event, i);
      hide Step;
    } else if event.Check? || event.Finish? {
      CheckStepsOn(s, event);
      hide Step, Begun;
    } else {
      hide DoCheck, DoFinish, DoFetched, DoStreamed, DoPrepared;
    }
    hide Choose, Picked, StillAllowed, SameVersion;
  }

  /** A download's step brings on the work it answers, and leaves the rest. */
  predicate StepsOn(s: State, next: State, event: Event, i: nat) {
    && |next.tasks| == |s.tasks|
    && (i < |s.tasks| ==>
          if IsAnswerTo(s, event, i) then StepsLeft(next.tasks[i]) < StepsLeft(s.tasks[i]) else next.tasks[i] == s.tasks[i])
  }

  lemma FetchedStepsOn(s: State, event: Event, i: nat)
    requires event.Fetched?
    ensures StepsOn(s, DoFetched(s, event.task, event.releases, event.assetOk), event, i)
  {
    hide Picked;
  }

  lemma StreamedStepsOn(s: State, event: Event, i: nat)
    requires event.Streamed?
    ensures StepsOn(s, DoStreamed(s, event.task, event.ok, event.mac), event, i)
  {
  }

  lemma PreparedStepsOn(s: State, event: Event, i: nat)
    requires event.Prepared?
    ensures StepsOn(s, DoPrepared(s, event.task, event.ok), event, i)
  {
  }

  lemma DownloadStepsOn(s: State, event: Event, i: nat)
    requires event.Fetched? || event.Streamed? || event.Prepared?
    ensures StepsOn(s, Step(s, event), event, i)
  {
    if event.Fetched? {
      FetchedStepsOn(s, event, i);
    } else if event.Streamed? {
      StreamedStepsOn(s, event, i);
    } else {
      PreparedStepsOn(s, event, i);
    }
    hide StepsOn, DoFetched, DoStreamed, DoPrepared;
  }

  lemma CheckStepsOn(s: State, event: Event)
    requires event.Check? || event.Finish?
    ensures var next, begun := Step(s, event), Begun(s, event);
            next.tasks == if begun.Some? then s.tasks + [begun.value] else s.tasks
  {
    hide StillAllowed, SameVersion, DoListed, DoFetched, DoStreamed, DoPrepared, DoPlaced, DoDownload;
  }

  // ── An update nothing stops ──

  /** What comes of download *i* of *version* is well: the list has the release with an asset, and the
      download and its checks end well. */
  predicate GoesWell(event: Event, i: nat, version: Option<Version>) {
    match event
    case Fetched(k, releases, assetOk) =>
      k == i ==> releases.Some? && assetOk
                 && exists r :: r in releases.value && !r.draft && SameVersion(r.version, version)
    case Streamed(k, ok, _) => k == i ==> ok
    case Prepared(k, ok) => k == i ==> ok
    case Stop => false
    case _ => true
  }

  /** Download *i* is under way in its folder, for its version. */
  predicate UnderWay(s: State, i: nat, dir: nat, version: Option<Version>) {
    && i < |s.tasks| && !s.stopping
    && match s.tasks[i]
       case Fetching(d, v) => d == dir && v == version
       case Streaming(d, r) => d == dir && SameVersion(r.version, version)
       case Preparing(d, r) => d == dir && SameVersion(r.version, version)
       case _ => false
  }

  lemma FetchGoesWell(s: State, event: Event, i: nat, dir: nat, version: Option<Version>)
    requires UnderWay(s, i, dir, version) && GoesWell(event, i, version) && event.Fetched?
    ensures UnderWay(Step(s, event), i, dir, version)
  {
    if event.task == i && s.tasks[i].Fetching? {
      PickedIsFirst(event.releases.value, version);
      var r :| r in event.releases.value && !r.draft && SameVersion(r.version, version);
      assert Usable(r);
    }
    hide Picked, SameVersion;
  }

  lemma StepGoesWell(s: State, event: Event, i: nat, dir: nat, version: Option<Version>)
    requires UnderWay(s, i, dir, version) && GoesWell(event, i, version) && AllNamed(s)
    ensures UnderWay(Step(s, event), i, dir, version) || IsMade(MadeReady(s, event), dir, version)
  {
    if event.Fetched? {
      FetchGoesWell(s, event, i, dir, version);
    } else {
      if !IsAnswerTo(s, event, i) {
        WorkGoesOn(s, event, i);
      }
      StaysGoing(s, event);
      hide SameVersion, StillAllowed, Choose, DoCheck, DoListed, DoDownload, DoFinish, DoPlaced;
    }
  }

  lemma StaysGoing(s: State, event: Event)
    requires !event.Stop?
    ensures Step(s, event).stopping == s.stopping
  {
    if event.Fetched? || event.Streamed? || event.Prepared? {
      DownloadLeavesTheRest(s, event);
      hide Step;
    } else {
      hide DoFetched, DoStreamed, DoPrepared;
    }
    hide Choose, Picked, StillAllowed, SameVersion;
  }

  predicate IsMade(made: Option<(nat, Release)>, dir: nat, version: Option<Version>) {
    made.Some? && made.value.0 == dir && SameVersion(made.value.1.version, version)
  }

  /** An Update that nothing stops ends with its copy ready, over every interleaving with checks, presses and
      their answers: pressed at event *m*, with all that comes of it well and no quit, at every later moment
      it is still under way, or its copy became ready in its own folder, of the version pressed. */
  lemma {:induction false} UpdateEndsReady(events: seq<Event>, m: nat, n: nat, version: Option<Version>)
    requires m < n <= |events| && Downloads(Run(events, m), events[m]) && events[m].version == version
    requires forall k | m < k < n :: GoesWell(events[k], |Run(events, m).tasks|, version)
    ensures var i, dir := |Run(events, m).tasks|, Run(events, m).nextDir;
            || UnderWay(Run(events, n), i, dir, version)
            || exists k :: m < k < n && IsMade(MadeReady(Run(events, k), events[k]), dir, version)
  {
    hide Step, GoesWell, IsMade, MadeReady, SameVersion, AllNamed, Downloads;
    var i, dir := |Run(events, m).tasks|, Run(events, m).nextDir;
    if m + 1 < n {
      UpdateEndsReady(events, m, n - 1, version);
      RunNames(events, n - 1);
      if UnderWay(Run(events, n - 1), i, dir, version) {
        StepGoesWell(Run(events, n - 1), events[n - 1], i, dir, version);
      }
    } else {
      UpdateBegins(Run(events, m), events[m]);
    }
  }

  lemma UpdateBegins(s: State, event: Event)
    requires Downloads(s, event)
    ensures UnderWay(Step(s, event), |s.tasks|, s.nextDir, event.version)
  {
  }

  /** How a download or a placement that is over leaves the updater. */
  predicate EndsFree(s: State, next: State, event: Event, i: nat)
    requires i < |s.tasks|
  {
    && (next.busy <==> PlacedWell(s, event))
    && (if EndsBadly(s, event) then next.phase == Failed else next.phase == Failed ==> s.phase == Failed)
    && (MadeReady(s, event).None? && !PlacedWell(s, event) && !s.stopping ==> EndsBadly(s, event))
    && (IsDownload(s.tasks[i]) && MadeReady(s, event).None? ==> next.dirs == {} && next.activeDir.None?)
  }

  /** The state as a running download or placement finds it. */
  predicate Running(s: State, i: nat) {
    && i < |s.tasks| && Fits(s, s.tasks[i]) && Named(s.tasks[i])
    && s.dirs == (if s.activeDir.Some? then {s.activeDir.value} else {}) + (if s.readyCopy.Some? then {s.readyCopy.value.dir} else {})
  }

  lemma FetchedEndsFree(s: State, event: Event, i: nat)
    requires event.Fetched? && event.task == i && Running(s, i) && s.tasks[i].Fetching?
    ensures var next := DoFetched(s, i, event.releases, event.assetOk); next.tasks[i].Over? ==> EndsFree(s, next, event, i)
  {
    if event.releases.Some? {
      PickedIsFirst(event.releases.value, s.tasks[i].version);
      assert event.assetOk && !s.stopping && DoFetched(s, i, event.releases, event.assetOk).tasks[i].Over? ==>
          forall r :: r in event.releases.value ==> r.draft || !SameVersion(r.version, s.tasks[i].version);
    }
    hide Picked, SameVersion;
  }

  lemma StreamedEndsFree(s: State, event: Event, i: nat)
    requires event.Streamed? && event.task == i && Running(s, i) && s.tasks[i].Streaming?
    ensures var next := DoStreamed(s, i, event.ok, event.mac); next.tasks[i].Over? ==> EndsFree(s, next, event, i)
  {
  }

  lemma PreparedEndsFree(s: State, event: Event, i: nat)
    requires event.Prepared? && event.task == i && Running(s, i) && s.tasks[i].Preparing?
    ensures var next := DoPrepared(s, i, event.ok); next.tasks[i].Over? ==> EndsFree(s, next, event, i)
  {
  }

  lemma PlacedEndsFree(s: State, event: Event, i: nat)
    requires event.Placed? && event.task == i && Running(s, i) && s.tasks[i].Copying?
    ensures EndsFree(s, DoPlaced(s, i, event.ok), event, i)
  {
  }

  /** When a download or a placement ends, over every run, the updater is free again unless a copy is staged;
      it says so when the work failed, which it did if no copy became ready or staged and the app is not
      stopping; and a download that made nothing ready leaves no folder. */
  lemma WorkEndsFree(events: seq<Event>, n: nat, i: nat)
    requires n < |events| && i < |Run(events, n).tasks| && IsActive(Run(events, n).tasks[i])
    requires IsAnswerTo(Run(events, n), events[n], i) && Step(Run(events, n), events[n]).tasks[i].Over?
    ensures EndsFree(Run(events, n), Run(events, n + 1), events[n], i)
  {
    RunKeeps(events, n);
    RunNames(events, n);
    var s := Run(events, n);
    assert Run(events, n + 1) == Step(s, events[n]);
    assert Running(s, i);
    hide Run, EndsFree, Running, DoFetched, DoStreamed, DoPrepared, DoPlaced;
    if s.tasks[i].Fetching? {
      FetchedEndsFree(s, events[n], i);
    } else if s.tasks[i].Streaming? {
      StreamedEndsFree(s, events[n], i);
    } else if s.tasks[i].Preparing? {
      PreparedEndsFree(s, events[n], i);
    } else {
      PlacedEndsFree(s, events[n], i);
    }
  }

  /** The answer says the work failed: no list, no release or asset, a check or a placement that did not end well. */
  predicate EndsBadly(s: State, event: Event) {
    match event
    case Fetched(i, releases, assetOk) =>
      i < |s.tasks| && s.tasks[i].Fetching? &&
      (releases.None? || (!s.stopping && (!assetOk || forall r :: r in releases.value ==> r.draft || !SameVersion(r.version, s.tasks[i].version))))
    case Streamed(_, ok, _) => !ok
    case Prepared(_, ok) => !ok
    case Placed(_, ok) => !ok
    case _ => false
  }

  // ── What a press says, and what the quit leaves ──

  /** What the state says once a press began its work, or why it began none. */
  lemma PressSays(s: State, event: Event)
    ensures var next := Step(s, event);
            && (Downloads(s, event) ==>
                  next.busy && next.phase == Downloading && next.activeDir == Some(s.nextDir) && s.nextDir in next.dirs && s.nextDir < next.nextDir)
            && (Places(s, event) ==> next.busy && next.phase == Placing && s.readyCopy.value.dir in next.beside && next.readyCopy == s.readyCopy)
            && (AsksForList(s, event) ==> next.phase == Checking && !next.busy)
            && (FindsUnreadable(s, event) ==> next.phase == Failed)
            && (Judges(s, event) && event.releases.None? ==> next.phase == Failed)
            && (event.Download? && !event.dirMade && Downloads(s, event.(dirMade := true)) ==> next.phase == Failed && !next.busy)
            && (Drops(s, event) ==> next.ready.None? && next.dirs == s.dirs - {s.readyCopy.value.dir} && next.phase != Ready)
  {
    if event.Check? || event.Finish? {
      hide DoListed, DoFetched, DoStreamed, DoPrepared, DoPlaced, DoDownload, DoAbandon, DoTakeStaged;
    } else {
      hide DoCheck, DoFinish, DoFetched, DoStreamed, DoPrepared;
    }
    hide Choose, Picked, StillAllowed, SameVersion;
  }

  /** A Restart to finish for a copy that is not there offers the update again, and for one that is another
      than was checked fails; nothing is put beside the app. */
  lemma CopyNotAsChecked(s: State, event: Event)
    requires event.Finish? && Places(s, event.(copy := CopyOk, still := CopyOk)) && !Places(s, event)
    ensures var next := Step(s, event);
            && next.phase == (if event.copy.CopyGone? then Available else Failed) && next.ready.None?
            && !next.busy && next.offer == s.offer && next.beside == s.beside && next.dirs == s.dirs - {s.readyCopy.value.dir}
  {
    hide StillAllowed, SameVersion;
  }

  /** Once the quit let go of a download under way, no private folder is left, over every run. */
  lemma QuitLeavesNoFolder(events: seq<Event>, n: nat)
    requires n < |events| && events[n] == Abandon && Run(events, n).stopping
    ensures Run(events, n + 1).dirs == {}
  {
    RunKeeps(events, n + 1);
    assert Run(events, n + 1) == Step(Run(events, n), events[n]);
    hide Run;
  }
}
