/**
 * The updater as the app holds it (desktop/appUpdate.js, makeAppUpdater): one object whose methods update
 * its variables in place, each method being one step between awaits. What it does is `Updater.Step`, over
 * which `Updater` proves what every run keeps.
 */
module AppUpdater {
  import opened Options
  import opened Versions
  import opened Releases
  import opened Updater

  class Updates {
    var phase: Phase
    var offer: Option<OnOffer>
    var ready: Option<Version>
    var readyCopy: Option<ReadyCopy>
    var staged: Option<ReadyCopy>
    var busy: bool
    var stopping: bool
    var activeDir: Option<nat>
    /** The pieces of work suspended at an await. */
    var tasks: seq<Task>
    /** What is on disk: the private folders, and the copies beside the app. */
    var dirs: set<nat>
    var nextDir: nat
    var beside: set<nat>
    var taken: bool

    ghost function Now(): State
      reads this
    {
      State(phase, offer, ready, readyCopy, staged, busy, stopping, activeDir, tasks, dirs, nextDir, beside, taken)
    }

    constructor ()
      ensures Now() == Init
    {
      phase, offer, ready, readyCopy, staged := Idle, None, None, None, None;
      busy, stopping, activeDir, tasks, dirs := false, false, None, [], {};
      nextDir, beside, taken := 0, {}, false;
    }

    method DiscardReady()
      modifies this
      ensures Now() == Discard(old(Now()))
    {
      if readyCopy.None? {
        return;
      }
      var dir := readyCopy.value.dir;
      readyCopy := None;
      dirs := dirs - {dir};
    }

    method Drop()
      modifies this
      ensures Now() == DropDisallowed(old(Now()))
    {
      DiscardReady();
      phase, ready, offer := Idle, None, None;
    }

    /** A check, from after the ready copy's own settings were read. */
    method AskForList(asked: bool, settings: Settings)
      modifies this
      ensures Now() == CheckOn(old(Now()), asked, settings)
    {
      if settings.rules.None? {
        phase, offer := Failed, None;
        return;
      }
      if !asked && !settings.checkEnabled {
        return;
      }
      phase := Checking;
      tasks := tasks + [Listing(settings.rules.value)];
    }

    method CheckCall(asked: bool, current: Option<Version>, first: Settings, second: Settings)
      modifies this
      ensures Now() == Step(old(Now()), Check(asked, current, first, second))
    {
      hide ReadyAllowed;
      if busy {
        return;
      }
      var settings := first;
      if readyCopy.Some? {
        if StillAllowed(readyCopy.value, current, first) {
          return;
        }
        Drop();
        settings := second;
      }
      AskForList(asked, settings);
    }

    method Becomes(i: nat, task: Task)
      modifies this`tasks
      ensures Now() == Set(old(Now()), i, task)
    {
      if i < |tasks| {
        tasks := tasks[i := task];
      }
    }

    /** The list a check asked for is back. */
    method ListIsBack(i: nat, current: Option<Version>, releases: Option<seq<Release>>, installable: bool)
      requires i < |tasks| && tasks[i].Listing?
      modifies this
      ensures Now() == Step(old(Now()), Listed(i, current, releases, installable))
    {
      hide Choose;
      var rules := tasks[i].rules;
      Becomes(i, Over);
      if busy || readyCopy.Some? {
        return;
      }
      if releases.None? {
        phase := Failed;
        return;
      }
      match Choose(releases.value, current, rules)
      case Offer(release) =>
        if release.version.Some? {
          phase, offer := Available, Some(OnOffer(release.version.value, installable));
        }
      case Nothing(why) =>
        phase := if why.Current? then Latest else Failed;
        offer := None;
    }

    /** A download's last step, however it ended. */
    method DownloadEnds(i: nat, dir: nat, failed: bool)
      modifies this
      ensures Now() == EndDownload(old(Now()), i, dir, failed)
    {
      if failed {
        phase := Failed;
      }
      if readyCopy.None? {
        dirs := dirs - {dir};
      }
      activeDir := None;
      busy := false;
      Becomes(i, Over);
    }

    method DownloadCall(version: Option<Version>, dirMade: bool) returns (ok: bool)
      modifies this
      ensures Now() == Step(old(Now()), Download(version, dirMade))
      ensures ok <==> MayDownload(old(Now()), version)
    {
      hide SameVersion;
      if stopping || busy || readyCopy.Some? {
        return false;
      }
      if offer.None? || !SameVersion(Some(offer.value.version), version) {
        return false;
      }
      if !offer.value.installable {
        return false;
      }
      if !dirMade {
        phase := Failed;
        return true;
      }
      busy := true;
      phase := Downloading;
      var dir := nextDir;
      nextDir := nextDir + 1;
      dirs := dirs + {dir};
      activeDir := Some(dir);
      tasks := tasks + [Fetching(dir, version)];
      return true;
    }

    method ReleasesAreBack(i: nat, releases: Option<seq<Release>>, assetOk: bool)
      requires i < |tasks| && tasks[i].Fetching?
      modifies this
      ensures Now() == Step(old(Now()), Fetched(i, releases, assetOk))
    {
      hide Picked;
      var Fetching(dir, version) := tasks[i];
      if releases.None? {
        DownloadEnds(i, dir, true);
        return;
      }
      if stopping {
        DownloadEnds(i, dir, false);
        return;
      }
      var picked := Picked(releases.value, version);
      if picked.None? || !assetOk {
        DownloadEnds(i, dir, true);
        return;
      }
      Becomes(i, Streaming(dir, picked.value));
    }

    method CopyIsReady(i: nat, dir: nat, release: Release)
      modifies this
      ensures Now() == BecomeReady(old(Now()), i, dir, release)
    {
      if stopping || release.version.None? {
        DownloadEnds(i, dir, false);
        return;
      }
      readyCopy := Some(ReadyCopy(dir, release.version.value, release));
      phase, ready := Ready, release.version;
      DownloadEnds(i, dir, false);
    }

    method AssetIsHere(i: nat, ok: bool, mac: bool)
      requires i < |tasks| && tasks[i].Streaming?
      modifies this
      ensures Now() == Step(old(Now()), Streamed(i, ok, mac))
    {
      var Streaming(dir, release) := tasks[i];
      if !ok {
        DownloadEnds(i, dir, true);
        return;
      }
      if stopping {
        DownloadEnds(i, dir, false);
        return;
      }
      phase := Verifying;
      if mac {
        Becomes(i, Preparing(dir, release));
      } else {
        CopyIsReady(i, dir, release);
      }
    }

    method CopyIsChecked(i: nat, ok: bool)
      requires i < |tasks| && tasks[i].Preparing?
      modifies this
      ensures Now() == Step(old(Now()), Prepared(i, ok))
    {
      var Preparing(dir, release) := tasks[i];
      if ok {
        CopyIsReady(i, dir, release);
      } else {
        DownloadEnds(i, dir, true);
      }
    }

    method FinishCall(version: Option<Version>, current: Option<Version>, rules: Settings, after: Settings,
                      copy: CopyState, still: CopyState) returns (ok: bool)
      modifies this
      ensures Now() == Step(old(Now()), Finish(version, current, rules, after, copy, still))
      ensures ok <==> MayFinish(old(Now()), version) && StillAllowed(old(readyCopy).value, current, rules) && !copy.CopyGone?
    {
      hide ReadyAllowed, SameVersion;
      if stopping || busy {
        return false;
      }
      if readyCopy.None? || !SameVersion(Some(readyCopy.value.version), version) {
        return false;
      }
      if !StillAllowed(readyCopy.value, current, rules) {
        Drop();
        AskForList(false, after);
        return false;
      }
      if copy.CopyGone? {
        DiscardReady();
        phase, ready := Available, None;
        return false;
      }
      var copied := readyCopy.value;
      if !still.CopyOk? {
        DiscardReady();
        phase, ready := Failed, None;
        return true;
      }
      busy := true;
      phase := Placing;
      beside := beside + {copied.dir};
      tasks := tasks + [Copying(copied)];
      return true;
    }

    /** The copy beside the app is made, or could not be. */
    method CopyIsPlaced(i: nat, ok: bool)
      requires i < |tasks| && tasks[i].Copying?
      modifies this
      ensures Now() == Step(old(Now()), Placed(i, ok))
    {
      var copy := tasks[i].copy;
      Becomes(i, Over);
      if !ok {
        beside := beside - {copy.dir};
        DiscardReady();
        phase, ready, busy := Failed, None, false;
        return;
      }
      if stopping {
        beside := beside - {copy.dir};
        busy := false;
        return;
      }
      staged := Some(copy);
      DiscardReady();
      phase, ready := Restarting, None;
    }

    method StopCall()
      modifies this
      ensures Now() == Step(old(Now()), Stop)
    {
      stopping := true;
      DiscardReady();
    }

    method AbandonCall()
      requires stopping
      modifies this
      ensures Now() == Step(old(Now()), Abandon)
    {
      if activeDir.None? {
        return;
      }
      var dir := activeDir.value;
      activeDir := None;
      dirs := dirs - {dir};
    }

    method TakeStagedCopy() returns (copy: Option<ReadyCopy>)
      modifies this
      ensures copy == old(staged)
      ensures Now() == Step(old(Now()), TakeStaged)
    {
      copy := staged;
      if copy.None? {
        return;
      }
      staged := None;
      beside := beside - {copy.value.dir};
      taken := true;
    }

    /** Whatever comes next: a continuation lands on the work that awaits it. */
    method Take(event: Event)
      modifies this
      ensures Now() == Step(old(Now()), event)
    {
      hide Choose, Picked, ReadyAllowed, SameVersion;
      match event {
        case Check(asked, current, first, second) => CheckCall(asked, current, first, second);
        case Listed(i, current, releases, installable) =>
          if i < |tasks| && tasks[i].Listing? { ListIsBack(i, current, releases, installable); }
        case Download(version, dirMade) => var _ := DownloadCall(version, dirMade);
        case Fetched(i, releases, assetOk) => if i < |tasks| && tasks[i].Fetching? { ReleasesAreBack(i, releases, assetOk); }
        case Streamed(i, ok, mac) => if i < |tasks| && tasks[i].Streaming? { AssetIsHere(i, ok, mac); }
        case Prepared(i, ok) => if i < |tasks| && tasks[i].Preparing? { CopyIsChecked(i, ok); }
        case Finish(version, current, rules, after, copy, still) =>
          var _ := FinishCall(version, current, rules, after, copy, still);
        case Placed(i, ok) => if i < |tasks| && tasks[i].Copying? { CopyIsPlaced(i, ok); }
        case Stop => StopCall();
        case Abandon => if stopping { AbandonCall(); }
        case TakeStaged => var _ := TakeStagedCopy();
      }
    }
  }

  /** An updater that went through any events at all has one piece of active work at most, and a ready copy
      only as its state says. */
  method UpdateThrough(events: seq<Event>) returns (updates: Updates)
    ensures fresh(updates) && updates.Now() == Run(events, |events|)
    ensures forall i, j | 0 <= i < j < |updates.tasks| :: !(IsActive(updates.tasks[i]) && IsActive(updates.tasks[j]))
    ensures updates.readyCopy.Some? ==>
              updates.ready == Some(updates.readyCopy.value.version) && (updates.phase.Ready? || updates.phase.Placing?)
    ensures updates.stopping ==> updates.readyCopy.None?
  {
    updates := new Updates();
    for i := 0 to |events|
      invariant fresh(updates) && updates.Now() == Run(events, i)
    {
      updates.Take(events[i]);
    }
    hide Step;
    OneAtATime(events, |events|);
    RunKeeps(events, |events|);
  }
}
