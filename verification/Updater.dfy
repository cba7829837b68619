/**
 * The app's updater between its presses (desktop/appUpdate.js, makeAppUpdater): check, Update,
 * Restart to finish and the quit's stop, each of whose continuations lands in any order.
 *
 * The state is the updater's own variables, the pieces of work suspended at an await, and what
 * stands on disk: the updates' private folders (*dirs*) and the copies beside the app (*beside*, each
 * by the folder it was copied from). What the network, the disk and the settings answer is brought by
 * the events. Removing a folder or a copy succeeds.
 */
module Updater {
  import opened Options
  import opened Versions
  import opened Releases

  datatype Phase = Idle | Checking | Latest | Available | Downloading | Verifying | Ready | Placing | Restarting | Failed

  /** The home's settings as read: None when its file cannot be read. */
  datatype Settings = Settings(rules: Option<Rules>, checkEnabled: bool)

  datatype OnOffer = OnOffer(version: Version, installable: bool)

  datatype ReadyCopy = ReadyCopy(dir: nat, version: Version, release: Release)

  /** A piece of work where it is suspended; *dir* is a download's private folder. */
  datatype Task =
    | Listing(rules: Rules)
    | Fetching(dir: nat, version: Option<Version>)
    | Streaming(dir: nat, release: Release)
    | Preparing(dir: nat, release: Release)
    | Copying(copy: ReadyCopy)
    | Over

  datatype State = State(
    phase: Phase, offer: Option<OnOffer>, ready: Option<Version>,
    readyCopy: Option<ReadyCopy>, staged: Option<ReadyCopy>, busy: bool, stopping: bool, activeDir: Option<nat>,
    tasks: seq<Task>, dirs: set<nat>, nextDir: nat, beside: set<nat>, taken: bool)

  const Init := State(Idle, None, None, None, None, false, false, None, [], {}, 0, {}, false)

  /** What the disk says of the ready copy at a press. */
  datatype CopyState = CopyOk | CopyGone | CopyChanged

  datatype Event =
    | Check(asked: bool, current: Option<Version>, first: Settings, second: Settings)
    | Listed(task: nat, current: Option<Version>, releases: Option<seq<Release>>, installable: bool)
    | Download(version: Option<Version>, dirMade: bool)
    | Fetched(task: nat, releases: Option<seq<Release>>, assetOk: bool)
    | Streamed(task: nat, ok: bool, mac: bool)
    | Prepared(task: nat, ok: bool)
    | Finish(version: Option<Version>, current: Option<Version>, rules: Settings, after: Settings, copy: CopyState, still: CopyState)
    | Placed(task: nat, ok: bool)
    | Stop
    | Abandon
    | TakeStaged

  // ── Pieces ──

  function Discard(s: State): State {
    if s.readyCopy.None? then s else s.(dirs := s.dirs - {s.readyCopy.value.dir}, readyCopy := None)
  }

  /** Whether *settings* still allow the ready copy's release. */
  predicate StillAllowed(copy: ReadyCopy, current: Option<Version>, settings: Settings) {
    settings.rules.Some? && ReadyAllowed(copy.release, current, settings.rules.value)
  }

  function DropDisallowed(s: State): (next: State)
    ensures next.tasks == s.tasks && next.readyCopy.None? && next.staged == s.staged && next.beside == s.beside
  {
    Discard(s).(phase := Idle, ready := None, offer := None)
  }

  /** `check`, from after the ready copy's own settings were read. */
  function CheckOn(s: State, asked: bool, settings: Settings): (next: State)
    ensures next.tasks == s.tasks || (settings.rules.Some? && next.tasks == s.tasks + [Listing(settings.rules.value)])
    ensures next.readyCopy == s.readyCopy && next.staged == s.staged && next.beside == s.beside
  {
    if settings.rules.None? then s.(phase := Failed, offer := None)
    else if !asked && !settings.checkEnabled then s
    else s.(phase := Checking, tasks := s.tasks + [Listing(settings.rules.value)])
  }

  function DoCheck(s: State, asked: bool, current: Option<Version>, first: Settings, second: Settings): State {
    if s.busy then s
    else if s.readyCopy.Some? then
      if StillAllowed(s.readyCopy.value, current, first) then s else CheckOn(DropDisallowed(s), asked, second)
    else CheckOn(s, asked, first)
  }

  function At(s: State, i: nat): Task {
    if i < |s.tasks| then s.tasks[i] else Over
  }

  function Set(s: State, i: nat, task: Task): State {
    if i < |s.tasks| then s.(tasks := s.tasks[i := task]) else s
  }

  /** The release list a check asked for is back. */
  function DoListed(s0: State, i: nat, current: Option<Version>, releases: Option<seq<Release>>, installable: bool): State {
    if !At(s0, i).Listing? then s0
    else
      var rules := At(s0, i).rules;
      var s := Set(s0, i, Over);
      if s.busy || s.readyCopy.Some? then s
      else if releases.None? then s.(phase := Failed)
      else
        match Choose(releases.value, current, rules)
        case Offer(release) =>
          if release.version.Some? then
            s.(phase := Available, offer := Some(OnOffer(release.version.value, installable)))
          else s
        case Nothing(why) => s.(phase := if why.Current? then Latest else Failed, offer := None)
  }

  /** A download ends: its folder goes unless it became the ready copy's, and the updater is free. */
  function EndDownload(s: State, i: nat, dir: nat, failed: bool): (next: State)
    ensures next.tasks == Set(s, i, Over).tasks
    ensures next.readyCopy == s.readyCopy && next.staged == s.staged && next.beside == s.beside
  {
    var s1 := if s.readyCopy.None? then s.(dirs := s.dirs - {dir}) else s;
    Set(s1.(activeDir := None, busy := false, phase := if failed then Failed else s1.phase), i, Over)
  }

  predicate MayDownload(s: State, version: Option<Version>) {
    && !s.stopping && !s.busy && s.readyCopy.None?
    && s.offer.Some? && SameVersion(Some(s.offer.value.version), version) && s.offer.value.installable
  }

  /** Update: a private folder of its own, and the list read again. */
  function DoDownload(s: State, version: Option<Version>, dirMade: bool): State {
    if !MayDownload(s, version) then s
    else if !dirMade then s.(phase := Failed)
    else
      s.(busy := true, phase := Downloading, dirs := s.dirs + {s.nextDir}, activeDir := Some(s.nextDir),
         nextDir := s.nextDir + 1, tasks := s.tasks + [Fetching(s.nextDir, version)])
  }

  function DoFetched(s: State, i: nat, releases: Option<seq<Release>>, assetOk: bool): State {
    if !At(s, i).Fetching? then s
    else
      var Fetching(dir, version) := At(s, i);
      if releases.None? then EndDownload(s, i, dir, true)
      else if s.stopping then EndDownload(s, i, dir, false)
      else
        var picked := Picked(releases.value, version);
        if picked.None? || !assetOk then EndDownload(s, i, dir, true)
        else Set(s, i, Streaming(dir, picked.value))
  }

  /** The download and its checks are done: the copy is ready. */
  function BecomeReady(s: State, i: nat, dir: nat, release: Release): (next: State)
    ensures next.tasks == Set(s, i, Over).tasks && next.staged == s.staged && next.beside == s.beside
  {
    if s.stopping || release.version.None? then EndDownload(s, i, dir, false)
    else
      var copy := ReadyCopy(dir, release.version.value, release);
      EndDownload(s.(readyCopy := Some(copy), phase := Ready, ready := Some(copy.version)), i, dir, false)
  }

  function DoStreamed(s: State, i: nat, ok: bool, mac: bool): State {
    if !At(s, i).Streaming? then s
    else
      var Streaming(dir, release) := At(s, i);
      if !ok then EndDownload(s, i, dir, true)
      else if s.stopping then EndDownload(s, i, dir, false)
      else if mac then Set(s.(phase := Verifying), i, Preparing(dir, release))
      else BecomeReady(s.(phase := Verifying), i, dir, release)
  }

  function DoPrepared(s: State, i: nat, ok: bool): State {
    if !At(s, i).Preparing? then s
    else
      var Preparing(dir, release) := At(s, i);
      if !ok then EndDownload(s, i, dir, true) else BecomeReady(s, i, dir, release)
  }

  predicate MayFinish(s: State, version: Option<Version>) {
    && !s.stopping && !s.busy && s.readyCopy.Some? && SameVersion(Some(s.readyCopy.value.version), version)
  }

  /** Restart to finish: the settings are read again, then the copy is put beside the app. */
  function DoFinish(
    s: State, version: Option<Version>, current: Option<Version>, rules: Settings, after: Settings,
    copy: CopyState, still: CopyState): State
  {
    if !MayFinish(s, version) then s
    else if !StillAllowed(s.readyCopy.value, current, rules) then CheckOn(DropDisallowed(s), false, after)
    else if copy.CopyGone? then Discard(s).(phase := Available, ready := None)
    else if !still.CopyOk? then Discard(s).(phase := Failed, ready := None)
    else
      s.(busy := true, phase := Placing, beside := s.beside + {s.readyCopy.value.dir},
         tasks := s.tasks + [Copying(s.readyCopy.value)])
  }

  function DoPlaced(s0: State, i: nat, ok: bool): State {
    if !At(s0, i).Copying? then s0
    else
      var copy := At(s0, i).copy;
      var s := Set(s0, i, Over);
      var gone := s.(beside := s.beside - {copy.dir}, busy := false);
      if !ok then Discard(gone).(phase := Failed, ready := None)
      else if s.stopping then gone
      else Discard(s).(staged := Some(copy), phase := Restarting, ready := None)
  }

  /** The quit's last step, after its stop: a download still under way is let go. */
  function DoAbandon(s: State): State {
    if s.activeDir.None? || !s.stopping then s else s.(dirs := s.dirs - {s.activeDir.value}, activeDir := None)
  }

  /** The quit's swap takes the staged copy: into the app's place, or away again (`Swap`). */
  function DoTakeStaged(s: State): State {
    if s.staged.None? then s
    else s.(staged := None, beside := s.beside - {s.staged.value.dir}, taken := true)
  }

  function Step(s: State, event: Event): State {
    match event
    case Check(asked, current, first, second) => DoCheck(s, asked, current, first, second)
    case Listed(i, current, releases, installable) => DoListed(s, i, current, releases, installable)
    case Download(version, dirMade) => DoDownload(s, version, dirMade)
    case Fetched(i, releases, assetOk) => DoFetched(s, i, releases, assetOk)
    case Streamed(i, ok, mac) => DoStreamed(s, i, ok, mac)
    case Prepared(i, ok) => DoPrepared(s, i, ok)
    case Finish(version, current, rules, after, copy, still) => DoFinish(s, version, current, rules, after, copy, still)
    case Placed(i, ok) => DoPlaced(s, i, ok)
    case Stop => Discard(s).(stopping := true)
    case Abandon => DoAbandon(s)
    case TakeStaged => DoTakeStaged(s)
  }

  /** The updater after the first *n* of *events*. */
  function Run(events: seq<Event>, n: nat): State
    requires n <= |events|
  {
    if n == 0 then Init else Step(Run(events, n - 1), events[n - 1])
  }

  // ── One thing at a time ──

  predicate IsDownload(task: Task) {
    task.Fetching? || task.Streaming? || task.Preparing?
  }

  predicate IsActive(task: Task) {
    IsDownload(task) || task.Copying?
  }

  /** What an active piece of work and the ready copy say of each other and of the disk. */
  predicate Fits(s: State, task: Task) {
    && s.busy && s.staged.None? && !s.taken
    && (IsDownload(task) ==> s.readyCopy.None? && (if s.activeDir.Some? then s.activeDir.value == task.dir else s.stopping) && s.beside == {})
    && (task.Copying? ==>
          && s.activeDir.None? && s.beside == {task.copy.dir} && s.phase.Placing?
          && (if s.stopping then s.readyCopy.None? else s.readyCopy == Some(task.copy)))
  }

  ghost predicate SomeActive(s: State) {
    exists i :: 0 <= i < |s.tasks| && IsActive(s.tasks[i])
  }

  predicate Loose(s: State) {
    && s.activeDir.None?
    && s.beside == (if s.staged.Some? then {s.staged.value.dir} else {})
    && (s.staged.Some? || s.taken ==> s.readyCopy.None?)
    && (s.readyCopy.Some? ==> s.phase.Ready?)
    && (s.busy <==> s.staged.Some? || s.taken)
  }

  ghost predicate Inv(s: State) {
    && (forall i, j | 0 <= i < j < |s.tasks| :: !(IsActive(s.tasks[i]) && IsActive(s.tasks[j])))
    && (forall i | 0 <= i < |s.tasks| && IsActive(s.tasks[i]) :: Fits(s, s.tasks[i]))
    && (!SomeActive(s) ==> Loose(s))
    && s.dirs == (if s.activeDir.Some? then {s.activeDir.value} else {}) + (if s.readyCopy.Some? then {s.readyCopy.value.dir} else {})
    && (s.readyCopy.Some? ==> s.ready == Some(s.readyCopy.value.version))
    && (s.stopping ==> s.readyCopy.None?)
  }

  /** A step that ends no work and begins none. */
  lemma AsideKeeps(s: State, next: State)
    requires Inv(s) && next.tasks == s.tasks
    requires next.(phase := s.phase, offer := s.offer, ready := s.ready, readyCopy := s.readyCopy, dirs := s.dirs,
                   stopping := s.stopping, activeDir := s.activeDir, staged := s.staged, beside := s.beside, taken := s.taken) == s
    requires next.dirs == (if next.activeDir.Some? then {next.activeDir.value} else {}) + (if next.readyCopy.Some? then {next.readyCopy.value.dir} else {})
    requires next.readyCopy.Some? ==> next.ready == Some(next.readyCopy.value.version)
    requires next.stopping ==> next.readyCopy.None?
    requires forall i | 0 <= i < |s.tasks| && IsActive(s.tasks[i]) :: Fits(next, s.tasks[i])
    requires !SomeActive(s) ==> Loose(next)
    ensures Inv(next)
  {
  }

  lemma StopKeeps(s: State)
    requires Inv(s)
    ensures Inv(Step(s, Stop))
  {
    AsideKeeps(s, Step(s, Stop));
  }

  lemma AbandonKeeps(s: State)
    requires Inv(s)
    ensures Inv(DoAbandon(s))
  {
    AsideKeeps(s, DoAbandon(s));
  }

  lemma TakeStagedKeeps(s: State)
    requires Inv(s)
    ensures Inv(DoTakeStaged(s))
  {
    AsideKeeps(s, DoTakeStaged(s));
  }

  /** One more piece of work, when none was active. */
  lemma BeginKeeps(s: State, next: State, task: Task)
    requires forall i | 0 <= i < |s.tasks| :: !IsActive(s.tasks[i])
    requires next.tasks == s.tasks + [task]
    requires if IsActive(task) then Fits(next, task) else Loose(next)
    requires next.dirs == (if next.activeDir.Some? then {next.activeDir.value} else {}) + (if next.readyCopy.Some? then {next.readyCopy.value.dir} else {})
    requires next.readyCopy.Some? ==> next.ready == Some(next.readyCopy.value.version)
    requires next.stopping ==> next.readyCopy.None?
    ensures Inv(next)
  {
    assert next.tasks[|s.tasks|] == task;
  }

  lemma IdleHasNone(s: State)
    requires Inv(s) && !s.busy
    ensures !SomeActive(s) && Loose(s) && forall i | 0 <= i < |s.tasks| :: !IsActive(s.tasks[i])
  {
  }

  lemma CheckOnKeeps(s: State, asked: bool, settings: Settings)
    requires Inv(s) && !s.busy && s.readyCopy.None?
    ensures Inv(CheckOn(s, asked, settings))
  {
    IdleHasNone(s);
    var next := CheckOn(s, asked, settings);
    if next.tasks == s.tasks {
      AsideKeeps(s, next);
    } else {
      BeginKeeps(s, next, Listing(settings.rules.value));
    }
  }

  lemma DropKeeps(s: State)
    requires Inv(s) && !s.busy
    ensures Inv(DropDisallowed(s)) && DropDisallowed(s).readyCopy.None? && !DropDisallowed(s).busy
  {
    IdleHasNone(s);
    AsideKeeps(s, DropDisallowed(s));
  }

  lemma CheckKeeps(s: State, asked: bool, current: Option<Version>, first: Settings, second: Settings)
    requires Inv(s)
    ensures Inv(DoCheck(s, asked, current, first, second))
  {
    hide Inv;
    if !s.busy {
      if s.readyCopy.None? {
        CheckOnKeeps(s, asked, first);
      } else if !StillAllowed(s.readyCopy.value, current, first) {
        DropKeeps(s);
        CheckOnKeeps(DropDisallowed(s), asked, second);
      }
    }
  }

  /** Work that was not active is over. */
  lemma OverKeeps(s: State, i: nat, next: State)
    requires Inv(s) && i < |s.tasks| && !IsActive(s.tasks[i])
    requires next.tasks == s.tasks[i := Over]
    requires next == s.(tasks := next.tasks) || (!s.busy && s.readyCopy.None? && next == s.(tasks := next.tasks, phase := next.phase, offer := next.offer))
    ensures Inv(next)
  {
    if SomeActive(s) {
      var j :| 0 <= j < |s.tasks| && IsActive(s.tasks[j]);
      assert IsActive(next.tasks[j]);
    }
    forall j | 0 <= j < |next.tasks| && IsActive(next.tasks[j]) ensures Fits(next, next.tasks[j]) {
      assert next.tasks[j] == s.tasks[j];
    }
  }

  lemma ListedKeeps(s: State, i: nat, current: Option<Version>, releases: Option<seq<Release>>, installable: bool)
    requires Inv(s)
    ensures Inv(DoListed(s, i, current, releases, installable))
  {
    if At(s, i).Listing? {
      hide Choose;
      OverKeeps(s, i, DoListed(s, i, current, releases, installable));
    }
  }

  /** The one active piece of work goes on as *task*, or is over. */
  lemma WorkKeeps(s: State, i: nat, next: State, task: Task)
    requires Inv(s) && i < |s.tasks| && IsActive(s.tasks[i])
    requires next.tasks == s.tasks[i := task]
    requires if IsActive(task) then Fits(next, task) else Loose(next)
    requires next.dirs == (if next.activeDir.Some? then {next.activeDir.value} else {}) + (if next.readyCopy.Some? then {next.readyCopy.value.dir} else {})
    requires next.readyCopy.Some? ==> next.ready == Some(next.readyCopy.value.version)
    requires next.stopping ==> next.readyCopy.None?
    ensures Inv(next)
  {
    forall j | 0 <= j < |s.tasks| && j != i ensures !IsActive(next.tasks[j]) {
      assert next.tasks[j] == s.tasks[j];
    }
    assert next.tasks[i] == task;
  }

  lemma DownloadKeeps(s: State, version: Option<Version>, dirMade: bool)
    requires Inv(s)
    ensures Inv(DoDownload(s, version, dirMade))
  {
    var next := DoDownload(s, version, dirMade);
    if MayDownload(s, version) {
      IdleHasNone(s);
      if dirMade {
        BeginKeeps(s, next, Fetching(s.nextDir, version));
      } else {
        AsideKeeps(s, next);
      }
    }
  }

  lemma EndKeeps(s: State, i: nat, failed: bool)
    requires Inv(s) && i < |s.tasks| && IsDownload(s.tasks[i])
    ensures Inv(EndDownload(s, i, s.tasks[i].dir, failed))
  {
    assert Fits(s, s.tasks[i]);
    WorkKeeps(s, i, EndDownload(s, i, s.tasks[i].dir, failed), Over);
  }

  lemma FetchedKeeps(s: State, i: nat, releases: Option<seq<Release>>, assetOk: bool)
    requires Inv(s)
    ensures Inv(DoFetched(s, i, releases, assetOk))
  {
    if At(s, i).Fetching? {
      assert Fits(s, s.tasks[i]);
      var next := DoFetched(s, i, releases, assetOk);
      if next.tasks[i].Streaming? {
        WorkKeeps(s, i, next, next.tasks[i]);
      } else {
        EndKeeps(s, i, true);
        EndKeeps(s, i, false);
      }
    }
  }

  lemma ReadyKeeps(s: State, i: nat, release: Release, phase: Phase)
    requires Inv(s) && i < |s.tasks| && IsDownload(s.tasks[i])
    ensures Inv(BecomeReady(s.(phase := phase), i, s.tasks[i].dir, release))
  {
    assert Fits(s, s.tasks[i]);
    WorkKeeps(s, i, BecomeReady(s.(phase := phase), i, s.tasks[i].dir, release), Over);
  }

  lemma StreamedKeeps(s: State, i: nat, ok: bool, mac: bool)
    requires Inv(s)
    ensures Inv(DoStreamed(s, i, ok, mac))
  {
    if At(s, i).Streaming? {
      assert Fits(s, s.tasks[i]);
      EndKeeps(s, i, true);
      EndKeeps(s, i, false);
      var Streaming(dir, release) := At(s, i);
      if ok && !s.stopping {
        if mac {
          var next := DoStreamed(s, i, ok, mac);
          WorkKeeps(s, i, next, Preparing(dir, release));
        } else {
          ReadyKeeps(s, i, release, Verifying);
        }
      }
    }
  }

  lemma PreparedKeeps(s: State, i: nat, ok: bool)
    requires Inv(s)
    ensures Inv(DoPrepared(s, i, ok))
  {
    if At(s, i).Preparing? {
      assert Fits(s, s.tasks[i]);
      EndKeeps(s, i, true);
      ReadyKeeps(s, i, At(s, i).release, s.phase);
      assert s.(phase := s.phase) == s;
    }
  }

  lemma FinishKeeps(s: State, version: Option<Version>, current: Option<Version>, rules: Settings, after: Settings, copy: CopyState, still: CopyState)
    requires Inv(s)
    ensures Inv(DoFinish(s, version, current, rules, after, copy, still))
  {
    var next := DoFinish(s, version, current, rules, after, copy, still);
    if MayFinish(s, version) {
      IdleHasNone(s);
      if !StillAllowed(s.readyCopy.value, current, rules) {
        DropKeeps(s);
        CheckOnKeeps(DropDisallowed(s), false, after);
      } else if copy.CopyGone? || !still.CopyOk? {
        AsideKeeps(s, next);
      } else {
        BeginKeeps(s, next, Copying(s.readyCopy.value));
      }
    }
  }

  lemma PlacedKeeps(s: State, i: nat, ok: bool)
    requires Inv(s)
    ensures Inv(DoPlaced(s, i, ok))
  {
    if At(s, i).Copying? {
      assert Fits(s, s.tasks[i]);
      WorkKeeps(s, i, DoPlaced(s, i, ok), Over);
    }
  }

  lemma StepKeeps(s: State, event: Event)
    requires Inv(s)
    ensures Inv(Step(s, event))
  {
    hide Inv, DoCheck, DoListed, DoDownload, DoFetched, DoStreamed, DoPrepared, DoFinish, DoPlaced, DoAbandon, DoTakeStaged;
    match event
    case Check(asked, current, first, second) => CheckKeeps(s, asked, current, first, second);
    case Listed(i, current, releases, installable) => ListedKeeps(s, i, current, releases, installable);
    case Download(version, dirMade) => DownloadKeeps(s, version, dirMade);
    case Fetched(i, releases, assetOk) => FetchedKeeps(s, i, releases, assetOk);
    case Streamed(i, ok, mac) => StreamedKeeps(s, i, ok, mac);
    case Prepared(i, ok) => PreparedKeeps(s, i, ok);
    case Finish(version, current, rules, after, copy, still) => FinishKeeps(s, version, current, rules, after, copy, still);
    case Placed(i, ok) => PlacedKeeps(s, i, ok);
    case Stop => StopKeeps(s);
    case Abandon => AbandonKeeps(s);
    case TakeStaged => TakeStagedKeeps(s);
  }

  lemma {:induction false} RunKeeps(events: seq<Event>, n: nat)
    requires n <= |events|
    ensures Inv(Run(events, n))
  {
    hide Step;
    if n > 0 {
      RunKeeps(events, n - 1);
      StepKeeps(Run(events, n - 1), events[n - 1]);
    }
  }

  /** Over every interleaving of the presses, the checks, the quit and their continuations: at most one
      download or placement runs, none beside a staged copy; a ready copy is the one the state names;
      a copy stands beside the app exactly while its placement runs or it waits for the swap; and the
      private folders are exactly the ready copy's and, until the quit lets go of it, the running
      download's, so none is left behind. */
  lemma OneAtATime(events: seq<Event>, n: nat)
    requires n <= |events|
    ensures var s := Run(events, n);
            && (forall i, j | 0 <= i < j < |s.tasks| :: !(IsActive(s.tasks[i]) && IsActive(s.tasks[j])))
            && (SomeActive(s) ==> s.busy && s.staged.None?)
            && (s.busy ==> SomeActive(s) || s.staged.Some? || s.taken)
            && (s.readyCopy.Some? ==> s.ready == Some(s.readyCopy.value.version) && (s.phase.Ready? || s.phase.Placing?))
            && (forall dir :: dir in s.beside <==>
                  || (exists i :: 0 <= i < |s.tasks| && s.tasks[i].Copying? && s.tasks[i].copy.dir == dir)
                  || (s.staged.Some? && s.staged.value.dir == dir))
            && (forall dir :: dir in s.dirs <==>
                  || (s.readyCopy.Some? && s.readyCopy.value.dir == dir)
                  || (s.activeDir.Some? && exists i :: 0 <= i < |s.tasks| && IsDownload(s.tasks[i]) && s.tasks[i].dir == dir))
            && (s.activeDir.None? ==> s.stopping || forall i | 0 <= i < |s.tasks| :: !IsDownload(s.tasks[i]))
  {
    RunKeeps(events, n);
    var s := Run(events, n);
    if SomeActive(s) {
      var i :| 0 <= i < |s.tasks| && IsActive(s.tasks[i]);
      assert Fits(s, s.tasks[i]);
      forall j | 0 <= j < |s.tasks| && s.tasks[j].Copying? ensures j == i {
        assert IsActive(s.tasks[j]);
      }
    }
  }

  // ── After the quit's first step ──

  /** What stopping leaves no step to do. */
  predicate Stopped(s: State, next: State) {
    && next.stopping && next.readyCopy.None? && (next.staged == s.staged || next.staged.None?)
    && (next.phase.Ready? ==> s.phase.Ready?) && (next.phase.Restarting? ==> s.phase.Restarting?)
    && next.beside <= s.beside
  }

  lemma StoppedDownload(s: State, event: Event)
    requires s.stopping && s.readyCopy.None?
    requires event.Fetched? || event.Streamed? || event.Prepared?
    ensures Stopped(s, Step(s, event))
  {
    hide Picked;
  }

  lemma StoppedPress(s: State, event: Event)
    requires s.stopping && s.readyCopy.None?
    requires !(event.Fetched? || event.Streamed? || event.Prepared?)
    ensures Stopped(s, Step(s, event))
  {
    hide Choose, StillAllowed, SameVersion, DoFetched, DoStreamed, DoPrepared;
  }

  lemma StoppedStep(s: State, event: Event)
    requires s.stopping && s.readyCopy.None?
    ensures Stopped(s, Step(s, event))
  {
    hide Step, Stopped;
    if event.Fetched? || event.Streamed? || event.Prepared? {
      StoppedDownload(s, event);
    } else {
      StoppedPress(s, event);
    }
  }

  /** From the quit's first step on, nothing becomes ready, nothing is staged, and nothing new is put
      beside the app: what was staged before it is all the swap can take. */
  lemma {:induction false} NothingAfterStop(events: seq<Event>, m: nat, n: nat)
    requires m < n <= |events| && events[m] == Stop
    ensures var before := Run(events, m + 1);
            var s := Run(events, n);
            && s.stopping && s.readyCopy.None? && (s.staged == before.staged || s.staged.None?)
            && (s.phase.Ready? ==> before.phase.Ready?) && s.beside <= before.beside
  {
    if m + 1 < n {
      NothingAfterStop(events, m, n - 1);
      StoppedStep(Run(events, n - 1), events[n - 1]);
    }
    hide Step;
  }

  // ── Two presses before anything beside the app changes ──

  /** At event *m* Update was pressed for *version*, the one on offer, and began with folder *dir*. */
  ghost predicate UpdatePressed(events: seq<Event>, m: nat, dir: nat, version: Option<Version>)
    requires m < |events|
  {
    var s := Run(events, m);
    events[m] == Download(version, true) && MayDownload(s, version) && s.nextDir == dir
  }

  lemma DownloadGoesOn(s: State, event: Event, i: nat)
    requires event.Fetched? || event.Streamed? || event.Prepared?
    requires At(Step(s, event), i).Fetching?
    ensures At(s, i) == At(Step(s, event), i)
  {
    hide Picked, EndDownload, BecomeReady;
  }

  /** No other event begins a download: work going on is never `Fetching` again. */
  lemma FetchingIsNew(s: State, event: Event, i: nat)
    requires !event.Download? && At(Step(s, event), i).Fetching?
    ensures At(s, i) == At(Step(s, event), i)
  {
    hide Choose, StillAllowed, SameVersion, DoFetched, DoStreamed, DoPrepared, CheckOn, DropDisallowed;
    if event.Fetched? || event.Streamed? || event.Prepared? {
      DownloadGoesOn(s, event, i);
    }
  }

  lemma FetchingBegins(s: State, event: Event, i: nat)
    requires At(Step(s, event), i).Fetching? && At(s, i) != At(Step(s, event), i)
    ensures var task := At(Step(s, event), i);
            event == Download(task.version, true) && MayDownload(s, task.version) && s.nextDir == task.dir
  {
    hide DoCheck, DoListed, DoFetched, DoStreamed, DoPrepared, DoFinish, DoPlaced;
    if !event.Download? {
      FetchingIsNew(s, event, i);
    }
  }

  lemma {:induction false} FetchPressed(events: seq<Event>, n: nat, i: nat) returns (m: nat)
    requires n <= |events| && At(Run(events, n), i).Fetching?
    ensures var task := At(Run(events, n), i); m < n && UpdatePressed(events, m, task.dir, task.version)
  {
    var s := Run(events, n - 1);
    if At(s, i) == At(Run(events, n), i) {
      m := FetchPressed(events, n - 1, i);
    } else {
      FetchingBegins(s, events[n - 1], i);
      m := n - 1;
    }
  }

  /** A downloaded copy, wherever it stands: still streaming or checked, ready, being placed, staged. */
  ghost predicate Holds(s: State, copy: ReadyCopy) {
    || s.readyCopy == Some(copy) || s.staged == Some(copy)
    || exists i: nat :: HoldsAt(s, i, copy)
  }

  predicate HoldsAt(s: State, i: nat, copy: ReadyCopy) {
    match At(s, i)
    case Streaming(dir, release) => dir == copy.dir && release == copy.release && release.version == Some(copy.version)
    case Preparing(dir, release) => dir == copy.dir && release == copy.release && release.version == Some(copy.version)
    case Copying(placed) => placed == copy
    case _ => false
  }

  /** Every task but *i* stands as it did, so a copy held by one of them is held still. */
  lemma HeldElsewhere(s: State, next: State, i: nat, copy: ReadyCopy)
    requires Holds(next, copy) && !HoldsAt(next, i, copy)
    requires forall j: nat | j != i && HoldsAt(next, j, copy) :: At(s, j) == At(next, j)
    requires next.readyCopy == Some(copy) || next.staged == Some(copy) ==> Holds(s, copy)
    ensures Holds(s, copy)
  {
    if !(next.readyCopy == Some(copy) || next.staged == Some(copy)) {
      var j: nat :| HoldsAt(next, j, copy);
      assert HoldsAt(s, j, copy);
    }
  }

  lemma StreamedHolds(s: State, i: nat, ok: bool, mac: bool, copy: ReadyCopy)
    requires Holds(DoStreamed(s, i, ok, mac), copy)
    ensures Holds(s, copy)
  {
    if At(s, i).Streaming? && !HoldsAt(s, i, copy) {
      HeldElsewhere(s, DoStreamed(s, i, ok, mac), i, copy);
    }
  }

  lemma PreparedHolds(s: State, i: nat, ok: bool, copy: ReadyCopy)
    requires Holds(DoPrepared(s, i, ok), copy)
    ensures Holds(s, copy)
  {
    if At(s, i).Preparing? && !HoldsAt(s, i, copy) {
      HeldElsewhere(s, DoPrepared(s, i, ok), i, copy);
    }
  }

  lemma PlacedHolds(s: State, i: nat, ok: bool, copy: ReadyCopy)
    requires Holds(DoPlaced(s, i, ok), copy)
    ensures Holds(s, copy)
  {
    if At(s, i).Copying? && !HoldsAt(s, i, copy) {
      HeldElsewhere(s, DoPlaced(s, i, ok), i, copy);
    }
  }

  lemma FinishHolds(
    s: State, version: Option<Version>, current: Option<Version>, rules: Settings, after: Settings,
    copy: CopyState, still: CopyState, held: ReadyCopy)
    requires Holds(DoFinish(s, version, current, rules, after, copy, still), held)
    ensures Holds(s, held)
  {
    hide StillAllowed, CheckOn, DropDisallowed;
    if s.readyCopy != Some(held) {
      HeldElsewhere(s, DoFinish(s, version, current, rules, after, copy, still), |s.tasks|, held);
    }
  }

  lemma CheckHolds(s: State, asked: bool, current: Option<Version>, first: Settings, second: Settings, copy: ReadyCopy)
    requires Holds(DoCheck(s, asked, current, first, second), copy)
    ensures Holds(s, copy)
  {
    hide StillAllowed, CheckOn, DropDisallowed;
    HeldElsewhere(s, DoCheck(s, asked, current, first, second), |s.tasks|, copy);
  }

  lemma OtherHolds(s: State, event: Event, copy: ReadyCopy)
    requires event.Listed? || event.Download? || event.Stop? || event.Abandon? || event.TakeStaged?
    requires Holds(Step(s, event), copy)
    ensures Holds(s, copy)
  {
    hide Choose;
    if Step(s, event) != s {
      HeldElsewhere(s, Step(s, event), if event.Listed? then event.task else |s.tasks|, copy);
    }
  }

  lemma FetchedHolds(s: State, i: nat, releases: Option<seq<Release>>, assetOk: bool, copy: ReadyCopy)
    requires Holds(DoFetched(s, i, releases, assetOk), copy) && !Holds(s, copy)
    ensures At(s, i).Fetching? && At(s, i).dir == copy.dir && SameVersion(Some(copy.version), At(s, i).version)
  {
    var next := DoFetched(s, i, releases, assetOk);
    if !HoldsAt(next, i, copy) {
      HeldElsewhere(s, next, i, copy);
    } else {
      PickedIsFirst(releases.value, At(s, i).version);
    }
  }

  /** A copy is first held when the list Update read again is back, as the release picked from it. */
  lemma HeldFrom(s: State, event: Event, copy: ReadyCopy)
    requires Holds(Step(s, event), copy) && !Holds(s, copy)
    ensures event.Fetched? && At(s, event.task).Fetching? && At(s, event.task).dir == copy.dir
    ensures SameVersion(Some(copy.version), At(s, event.task).version)
  {
    hide Holds, DoCheck, DoFetched, DoStreamed, DoPrepared, DoFinish, DoPlaced;
    match event
    case Check(asked, current, first, second) => CheckHolds(s, asked, current, first, second, copy);
    case Fetched(i, releases, assetOk) => FetchedHolds(s, i, releases, assetOk, copy);
    case Streamed(i, ok, mac) => StreamedHolds(s, i, ok, mac, copy);
    case Prepared(i, ok) => PreparedHolds(s, i, ok, copy);
    case Finish(version, current, rules, after, state, still) => FinishHolds(s, version, current, rules, after, state, still, copy);
    case Placed(i, ok) => PlacedHolds(s, i, ok, copy);
    case _ => OtherHolds(s, event, copy);
  }

  lemma {:induction false} CopyPressed(events: seq<Event>, n: nat, copy: ReadyCopy) returns (m: nat)
    requires n <= |events| && Holds(Run(events, n), copy)
    ensures m < n && events[m].Download? && UpdatePressed(events, m, copy.dir, events[m].version)
    ensures SameVersion(Some(copy.version), events[m].version)
  {
    hide Step, SameVersion, MayDownload, UpdatePressed;
    var s := Run(events, n - 1);
    if Holds(s, copy) {
      m := CopyPressed(events, n - 1, copy);
    } else {
      HeldFrom(s, events[n - 1], copy);
      m := FetchPressed(events, n - 1, events[n - 1].task);
    }
  }

  lemma BesideShrinks(s: State, event: Event)
    requires !event.Finish?
    ensures Step(s, event).beside <= s.beside
  {
    hide Choose, Picked, StillAllowed, SameVersion, EndDownload, BecomeReady, CheckOn, DropDisallowed;
  }

  lemma PutBeside(s: State, event: Event, dir: nat)
    requires dir in Step(s, event).beside && dir !in s.beside
    ensures event.Finish? && MayFinish(s, event.version) && s.readyCopy.value.dir == dir
    ensures StillAllowed(s.readyCopy.value, event.current, event.rules) && event.still.CopyOk?
  {
    hide DoCheck, DoListed, DoFetched, DoStreamed, DoPrepared, DoDownload, DoPlaced, ReadyAllowed;
    if !event.Finish? {
      BesideShrinks(s, event);
    }
  }

  /** Nothing beside the app changes before two presses. Whatever stands beside it was put there by a
      Restart to finish (event *f*) for the version then ready, which the settings read at that press
      still allowed; and that copy came from an earlier Update (event *m*) pressed for the version then
      on offer and installable here. */
  lemma {:induction false} TwoPressesFirst(events: seq<Event>, n: nat, dir: nat) returns (m: nat, f: nat)
    requires n <= |events| && dir in Run(events, n).beside
    ensures m < f < n && events[f].Finish? && MayFinish(Run(events, f), events[f].version)
    ensures var copy := Run(events, f).readyCopy.value;
            && copy.dir == dir && StillAllowed(copy, events[f].current, events[f].rules)
            && events[m].Download? && UpdatePressed(events, m, dir, events[m].version)
            && SameVersion(Some(copy.version), events[m].version)
  {
    var s := Run(events, n - 1);
    if dir in s.beside {
      hide Step;
      m, f := TwoPressesFirst(events, n - 1, dir);
    } else {
      PutBeside(s, events[n - 1], dir);
      hide Step;
      f := n - 1;
      m := CopyPressed(events, f, s.readyCopy.value);
    }
  }
}
