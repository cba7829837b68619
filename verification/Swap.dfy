/**
 * Putting a staged copy in the app's place (desktop/appUpdate.js, freePrevious, swapNow,
 * swapIfStaged) and saying, at the next start, how that ended (readAttempt).
 *
 * The disk is a map from paths to the copies that lie there; any rename, and the removal, may fail.
 */
module Swap {
  import opened Options
  import opened Versions
  import Decimal

  datatype Copy = Copy(version: Version, serial: nat)

  type Files = map<string, Copy>

  /** The hidden name the old copy takes: the *n*th, in *folder*. */
  function PreviousPath(folder: string, version: string, ext: string, n: nat): string {
    folder + "/.PersonalClaw-" + version + (if n > 1 then "-" + Decimal.Write(n) else "") + "." + ext + ".previous"
  }

  const NAMES := 50

  /** What fails of one swap: the first rename, the second, the rename back, the removal. */
  datatype Failures = Failures(first: bool, second: bool, back: bool, removal: bool)

  datatype Outcome = Swapped | Unchanged | Stranded(at: string)

  /** What the swap makes of *files*, *previous* being the free hidden name, if there was one. */
  function AfterSwap(files: Files, place: string, incoming: string, previous: Option<string>, fails: Failures): (Files, Outcome)
    requires place in files && incoming in files
  {
    var cleaned := (kept: Files) => if fails.removal then kept else kept - {incoming};
    if previous.None? || fails.first then (cleaned(files), Unchanged)
    else
      var moved := (files - {place})[previous.value := files[place]];
      if !fails.second && incoming in moved then ((moved - {incoming})[place := moved[incoming]], Swapped)
      else if fails.back then (cleaned(moved), Stranded(previous.value))
      else (cleaned((moved - {previous.value})[place := files[place]]), Unchanged)
  }

  /** Where the app is started again. */
  function StartsAt(place: string, outcome: Outcome): string {
    if outcome.Stranded? then outcome.at else place
  }

  // ── The note for the next start ──

  datatype Note = Note(from: Version, to: Version, stranded: Option<string>)

  /** The note as the swap leaves it: staging wrote it, and a stranded swap writes where the app is. */
  function NoteAfter(from: Version, to: Version, outcome: Outcome): Note {
    Note(from, to, if outcome.Stranded? then Some(outcome.at) else None)
  }

  datatype Ending = Updated | NotUpdated(stranded: Option<string>)

  /** `readAttempt`, at a start of the copy at version *current*. */
  function ReadAttempt(current: Version, note: Option<Note>): Option<Ending> {
    if note.None? then None
    else if Order(current, note.value.to) == 0 then Some(Updated)
    else if Order(current, note.value.from) != 0 then None
    else Some(NotUpdated(note.value.stranded))
  }

  // ── The hidden names ──

  function HiddenStem(folder: string, version: string): string {
    folder + "/.PersonalClaw-" + version
  }

  /** The old copy's names are hidden ones in its own folder, and no two numbers name the same. */
  lemma HiddenNamesDiffer(folder: string, version: string, ext: string, m: nat, n: nat)
    requires 1 <= m && 1 <= n
    ensures folder + "/.PersonalClaw-" <= PreviousPath(folder, version, ext, n)
    ensures PreviousPath(folder, version, ext, m) == PreviousPath(folder, version, ext, n) <==> m == n
  {
    var stem, end := HiddenStem(folder, version), "." + ext + ".previous";
    NamesAre(folder, version, ext, m);
    NamesAre(folder, version, ext, n);
    if PreviousPath(folder, version, ext, m) == PreviousPath(folder, version, ext, n) {
      Middle(stem, Numbered(m), Numbered(n), end);
      NumbersDiffer(m, n);
    }
  }

  function Numbered(n: nat): string {
    if n > 1 then "-" + Decimal.Write(n) else ""
  }

  lemma NamesAre(folder: string, version: string, ext: string, n: nat)
    ensures PreviousPath(folder, version, ext, n) == HiddenStem(folder, version) + Numbered(n) + ("." + ext + ".previous")
    ensures folder + "/.PersonalClaw-" <= PreviousPath(folder, version, ext, n)
  {
    var stem := HiddenStem(folder, version);
    assert stem + Numbered(n) + "." + ext + ".previous" == stem + Numbered(n) + ("." + ext + ".previous");
  }

  lemma Middle(stem: string, a: string, b: string, end: string)
    requires stem + a + end == stem + b + end
    ensures a == b
  {
    assert |a| == |b|;
    assert (stem + a + end)[|stem|..|stem| + |a|] == a;
    assert (stem + b + end)[|stem|..|stem| + |b|] == b;
  }

  lemma NumbersDiffer(m: nat, n: nat)
    requires 1 <= m && 1 <= n && Numbered(m) == Numbered(n)
    ensures m == n
  {
    if m > 1 && n > 1 {
      assert Numbered(m)[1..] == Decimal.Write(m) && Numbered(n)[1..] == Decimal.Write(n);
      Decimal.ReadWrite(m);
      Decimal.ReadWrite(n);
    } else {
      assert |Numbered(m)| > 0 <==> m > 1;
      assert |Numbered(n)| > 0 <==> n > 1;
    }
  }

  // ── All or nothing ──

  /** For every combination of failures: the new copy is at the app's place exactly when the swap
      reports it, and what came in is left lying nowhere unless its removal failed; the old copy survives at exactly one of the place and the free hidden name; every
      other path but the incoming copy's own keeps what lay there; and the app starts again on a copy
      that exists, the new one exactly when the swap took. */
  lemma SwapIsAllOrNothing(files: Files, place: string, incoming: string, previous: Option<string>, fails: Failures)
    requires place in files && incoming in files && place != incoming && files[place] != files[incoming]
    requires previous.Some? ==> previous.value !in files
    ensures var (after, outcome) := AfterSwap(files, place, incoming, previous, fails);
            && (outcome.Swapped? <==> previous.Some? && !fails.first && !fails.second)
            && (outcome.Stranded? <==> previous.Some? && !fails.first && fails.second && fails.back)
            && (incoming in after <==> !outcome.Swapped? && fails.removal)
            && (place in after && after[place] == files[incoming] <==> outcome.Swapped?)
            && (if place in after && after[place] == files[place] then previous.Some? ==> previous.value !in after
                else previous.Some? && previous.value in after && after[previous.value] == files[place])
            && (forall path | path in files && path != place && path != incoming :: path in after && after[path] == files[path])
            && (forall path | path in after :: path in files || Some(path) == previous)
            && StartsAt(place, outcome) in after
            && after[StartsAt(place, outcome)] == (if outcome.Swapped? then files[incoming] else files[place])
  {
  }

  /** And the next start tells the truth: the copy started again, whichever it is, reads the note as
      an update exactly when the swap took, and as stranded exactly where the old copy was left. */
  lemma NextStartTellsTheTruth(files: Files, place: string, incoming: string, previous: Option<string>, fails: Failures)
    requires place in files && incoming in files && place != incoming
    requires previous.Some? ==> previous.value !in files
    requires Order(files[incoming].version, files[place].version) == 1
    ensures var (after, outcome) := AfterSwap(files, place, incoming, previous, fails);
            var started := StartsAt(place, outcome);
            var note := NoteAfter(files[place].version, files[incoming].version, outcome);
            && started in after
            && ReadAttempt(after[started].version, Some(note)) ==
                 Some(match outcome
                      case Swapped => Updated
                      case Unchanged => NotUpdated(None)
                      case Stranded(at) => NotUpdated(Some(at)))
  {
    var was := files[place].version;
    var next := files[incoming].version;
    OrderIsTotalPreorder(was, next, was);
    OrderIsTotalPreorder(next, was, next);
  }

  // ── The disk itself ──

  class Disk {
    var files: Files

    constructor (files: Files)
      ensures this.files == files
    {
      this.files := files;
    }

    /** `renameSync`: what lies at *to* is replaced. */
    method Rename(from: string, to: string, fails: bool) returns (ok: bool)
      modifies this
      ensures ok <==> !fails && from in old(files)
      ensures files == if ok then (old(files) - {from})[to := old(files)[from]] else old(files)
    {
      if fails || from !in files {
        return false;
      }
      var copy := files[from];
      files := (files - {from})[to := copy];
      return true;
    }

    method Discard(path: string, fails: bool)
      modifies this
      ensures files == if fails then old(files) else old(files) - {path}
    {
      if !fails {
        files := files - {path};
      }
    }

    /** The first of the hidden names that nothing holds. */
    method FreePrevious(folder: string, version: string, ext: string) returns (previous: Option<string>)
      ensures match previous
              case Some(path) =>
                && path !in files
                && exists n :: 1 <= n <= 50 && path == PreviousPath(folder, version, ext, n)
                     && forall m | 1 <= m < n :: PreviousPath(folder, version, ext, m) in files
              case None => forall m | 1 <= m <= 50 :: PreviousPath(folder, version, ext, m) in files
    {
      var n := 1;
      while n <= NAMES
        invariant 1 <= n <= NAMES + 1
        invariant forall m | 1 <= m < n :: PreviousPath(folder, version, ext, m) in files
      {
        var candidate := PreviousPath(folder, version, ext, n);
        if candidate !in files {
          return Some(candidate);
        }
        n := n + 1;
      }
      return None;
    }

    /** `swapNow`: two renames, the second one's failure undoing the first. */
    method SwapNow(place: string, incoming: string, previous: string, fails: Failures) returns (outcome: Outcome)
      requires place in files && incoming in files && place != incoming && previous !in files
      modifies this
      ensures (files, outcome) == AfterSwap(old(files), place, incoming, Some(previous), fails.(removal := true))
    {
      var moved := Rename(place, previous, fails.first);
      if !moved {
        return Unchanged;
      }
      var placed := Rename(incoming, place, fails.second);
      if placed {
        return Swapped;
      }
      var back := Rename(previous, place, fails.back);
      return if back then Unchanged else Stranded(previous);
    }

    /** `swapIfStaged`: the free name, the swap, and what is left of the incoming copy taken away;
        resolves the outcome and where the app is asked to start again. */
    method SwapIfStaged(folder: string, place: string, incoming: string, version: string, ext: string, fails: Failures)
      returns (outcome: Outcome, startAgain: string, ghost previous: Option<string>)
      requires place in files && incoming in files && place != incoming && files[place] != files[incoming]
      modifies this
      ensures (files, outcome) == AfterSwap(old(files), place, incoming, previous, fails)
      ensures previous.Some? ==> previous.value !in old(files)
      ensures previous.None? <==> forall m | 1 <= m <= NAMES :: PreviousPath(folder, version, ext, m) in old(files)
      ensures startAgain == StartsAt(place, outcome) && startAgain in files
      ensures files[startAgain] == if outcome.Swapped? then old(files)[incoming] else old(files)[place]
    {
      startAgain := place;
      var free := FreePrevious(folder, version, ext);
      previous := free;
      SwapIsAllOrNothing(files, place, incoming, previous, fails);
      if free.None? {
        outcome := Unchanged;
      } else {
        outcome := SwapNow(place, incoming, free.value, fails);
      }
      if outcome.Stranded? {
        startAgain := outcome.at;
      }
      if !outcome.Swapped? {
        Discard(incoming, fails.removal);
      }
    }
  }
}
