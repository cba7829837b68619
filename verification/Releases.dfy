/**
 * Which release the app's updater offers (desktop/appUpdate.js, chooseRelease), the same rule over
 * the ready copy's release alone (readyAllowed), and the release Update then downloads.
 */
module Releases {
  import opened Options
  import opened Versions

  /** A release record: its tag's version as parsed, None for a tag that names none. */
  datatype Release = Release(tag: string, version: Option<Version>, draft: bool, prerelease: bool)

  /** The home's settings a choice is made under; the pin is None when empty, and what it names. */
  datatype Pin = NoPin | PinTo(version: Option<Version>)
  datatype Rules = Rules(beta: bool, pin: Pin)

  datatype Choice = Offer(release: Release) | Nothing(why: Why)
  datatype Why = Current | PinMissing | PinOlder

  predicate SameVersion(v: Option<Version>, w: Option<Version>) {
    v.Some? && w.Some? && Order(v.value, w.value) == 0
  }

  predicate Newer(v: Option<Version>, than: Option<Version>) {
    v.Some? && than.Some? && Order(v.value, than.value) == 1
  }

  predicate IsPrerelease(v: Option<Version>) {
    v.Some? && (v.value.pre.Some? || v.value.dev.Some?)
  }

  predicate Usable(r: Release) {
    !r.draft && r.version.Some?
  }

  /** The releases the unpinned choice is made among. */
  predicate Eligible(r: Release, current: Option<Version>, beta: bool) {
    Usable(r) && (beta || (!r.prerelease && !IsPrerelease(r.version))) && Newer(r.version, current)
  }

  function EligibleOf(releases: seq<Release>, current: Option<Version>, beta: bool): (out: seq<Release>)
    ensures forall r :: r in out <==> r in releases && Eligible(r, current, beta)
  {
    if releases == [] then []
    else
      var rest := EligibleOf(releases[1..], current, beta);
      if Eligible(releases[0], current, beta) then [releases[0]] + rest else rest
  }

  /** The first usable release of *pin*'s version. */
  function Pinned(releases: seq<Release>, pin: Option<Version>): Option<Release> {
    if releases == [] then None
    else if Usable(releases[0]) && SameVersion(releases[0].version, pin) then Some(releases[0])
    else Pinned(releases[1..], pin)
  }

  /** *r* put into a list sorted newest first, before every release not newer than it. */
  function Insert(r: Release, sorted: seq<Release>): (out: seq<Release>)
    requires Usable(r) && forall x | x in sorted :: Usable(x)
    ensures forall x :: x in out <==> x == r || x in sorted
  {
    if sorted == [] then [r]
    else
      assert Usable(sorted[0]);
      if Order(r.version.value, sorted[0].version.value) >= 0 then [r] + sorted
      else [sorted[0]] + Insert(r, sorted[1..])
  }

  /** The stable sort, newest first. */
  function NewestFirst(releases: seq<Release>): (out: seq<Release>)
    requires forall r | r in releases :: Usable(r)
    ensures forall r :: r in out <==> r in releases
  {
    if releases == [] then [] else Insert(releases[0], NewestFirst(releases[1..]))
  }

  function Choose(releases: seq<Release>, current: Option<Version>, rules: Rules): Choice {
    match rules.pin
    case PinTo(pin) =>
      var pinned := Pinned(releases, pin);
      if pinned.None? then Nothing(PinMissing)
      else if Newer(pinned.value.version, current) then Offer(pinned.value)
      else if SameVersion(pinned.value.version, current) then Nothing(Current)
      else Nothing(PinOlder)
    case NoPin =>
      var newer := EligibleOf(releases, current, rules.beta);
      if newer == [] then Nothing(Current) else Offer(NewestFirst(newer)[0])
  }

  // ── The choice is the best there is ──

  lemma {:induction false} HeadIsNewest(releases: seq<Release>)
    requires releases != [] && forall r | r in releases :: Usable(r)
    ensures var head := NewestFirst(releases)[0];
            head in releases && forall r | r in releases :: Order(head.version.value, r.version.value) >= 0
  {
    assert releases[0] in releases;
    var first := releases[0].version.value;
    if |releases| == 1 {
      OrderIsTotalPreorder(first, first, first);
    } else {
      HeadIsNewest(releases[1..]);
      var head := NewestFirst(releases[1..])[0].version.value;
      forall r | r in releases ensures Order(NewestFirst(releases)[0].version.value, r.version.value) >= 0 {
        OrderIsTotalPreorder(first, first, first);
        OrderIsTotalPreorder(head, first, first);
        OrderIsTotalPreorder(r.version.value, first, head);
        OrderIsTotalPreorder(r.version.value, head, first);
        OrderIsTotalPreorder(first, head, first);
        OrderIsTotalPreorder(head, r.version.value, first);
        OrderIsTotalPreorder(first, r.version.value, first);
        assert r == releases[0] || r in releases[1..];
      }
    }
  }

  /** Unpinned, what is offered is an eligible release no eligible one exceeds; and nothing is offered
      exactly when no release is eligible. */
  lemma OffersTheNewestEligible(releases: seq<Release>, current: Option<Version>, beta: bool)
    ensures match Choose(releases, current, Rules(beta, NoPin))
            case Offer(r) =>
              && r in releases && Eligible(r, current, beta)
              && (forall e | e in releases && Eligible(e, current, beta) :: Order(r.version.value, e.version.value) >= 0)
            case Nothing(why) => why == Current && forall e | e in releases :: !Eligible(e, current, beta)
  {
    var newer := EligibleOf(releases, current, beta);
    if newer != [] {
      HeadIsNewest(newer);
    }
  }

  /** Unpinned, something is offered exactly when some release is no draft, names a version newer than this
      copy's, and, on the stable channel, is no pre-release by its mark or by its version; and such a one is. */
  lemma OffersExactlyWhen(releases: seq<Release>, current: Option<Version>, beta: bool)
    ensures var choice := Choose(releases, current, Rules(beta, NoPin));
            && (choice.Offer? <==> exists r :: r in releases && IsOfferable(r, current, beta))
            && (choice.Offer? ==> IsOfferable(choice.release, current, beta))
  {
    OffersTheNewestEligible(releases, current, beta);
    assert forall r :: IsOfferable(r, current, beta) <==> Eligible(r, current, beta);
    hide Choose, Eligible, Order, IsOfferable;
  }

  predicate IsOfferable(r: Release, current: Option<Version>, beta: bool) {
    && !r.draft && r.version.Some? && current.Some? && Order(r.version.value, current.value) == 1
    && (beta || (!r.prerelease && r.version.value.pre.None? && r.version.value.dev.None?))
  }

  lemma {:induction false} PinnedIsFirst(releases: seq<Release>, pin: Option<Version>)
    ensures match Pinned(releases, pin)
            case Some(r) => r in releases && Usable(r) && SameVersion(r.version, pin)
            case None => forall e | e in releases :: !(Usable(e) && SameVersion(e.version, pin))
  {
    if releases != [] {
      PinnedIsFirst(releases[1..], pin);
    }
  }

  /** Pinned, what is offered is a release of exactly the pin's version, newer than this copy; a pin
      to an older one is never offered, and one no release matches is said. */
  lemma OffersOnlyThePin(releases: seq<Release>, current: Option<Version>, beta: bool, pin: Option<Version>)
    requires current.Some?
    ensures match Choose(releases, current, Rules(beta, PinTo(pin)))
            case Offer(r) => r in releases && Usable(r) && SameVersion(r.version, pin) && Newer(pin, current)
            case Nothing(PinMissing) => forall e | e in releases :: !(Usable(e) && SameVersion(e.version, pin))
            case Nothing(Current) => SameVersion(pin, current)
            case Nothing(PinOlder) => pin.Some? && Order(pin.value, current.value) == -1
  {
    PinnedIsFirst(releases, pin);
    if Pinned(releases, pin).Some? {
      var r := Pinned(releases, pin).value.version.value;
      OrderIsTotalPreorder(r, pin.value, current.value);
      OrderIsTotalPreorder(pin.value, r, current.value);
      OrderIsTotalPreorder(r, current.value, pin.value);
      OrderIsTotalPreorder(current.value, r, pin.value);
      OrderIsTotalPreorder(pin.value, current.value, r);
      OrderIsTotalPreorder(current.value, pin.value, r);
    }
  }

  // ── The ready copy's re-check ──

  /** `readyAllowed`: the same choice, over the ready copy's release alone. */
  predicate ReadyAllowed(release: Release, current: Option<Version>, rules: Rules) {
    Choose([release], current, rules).Offer?
  }

  /** What the re-check asks of a release: to be eligible, or the pin's and newer than this copy. */
  lemma ReadyAllowedExactlyWhen(release: Release, current: Option<Version>, rules: Rules)
    ensures ReadyAllowed(release, current, rules) <==>
              match rules.pin
              case NoPin => Eligible(release, current, rules.beta)
              case PinTo(pin) => Usable(release) && SameVersion(release.version, pin) && Newer(release.version, current)
  {
    assert [release][1..] == [] && release in [release];
    if rules.pin.NoPin? {
      OffersTheNewestEligible([release], current, rules.beta);
      if Choose([release], current, rules).Offer? {
        assert Choose([release], current, rules).release == release;
      }
    } else {
      PinnedIsFirst([release], rules.pin.version);
      if Pinned([release], rules.pin.version).Some? {
        assert Pinned([release], rules.pin.version).value == release;
      }
    }
  }

  /** Re-running the choice on what it offered, alone and under the same settings, offers it again:
      the re-check of a ready copy agrees with the offer it came from. */
  lemma OfferIsReadyAllowed(releases: seq<Release>, current: Option<Version>, rules: Rules)
    requires Choose(releases, current, rules).Offer?
    ensures var offered := Choose(releases, current, rules).release;
            ReadyAllowed(offered, current, rules) && Choose([offered], current, rules) == Offer(offered)
  {
    var offered := Choose(releases, current, rules).release;
    assert [offered][1..] == [];
    match rules.pin
    case NoPin =>
      OffersTheNewestEligible(releases, current, rules.beta);
      assert NewestFirst([offered]) == [offered];
    case PinTo(pin) => PinnedIsFirst(releases, pin);
  }

  // ── What Update downloads ──

  /** The release Update picks from the list it reads again: the first of the offered version that is
      no draft, whatever its other marks. */
  function Picked(releases: seq<Release>, version: Option<Version>): Option<Release> {
    if releases == [] then None
    else if !releases[0].draft && SameVersion(releases[0].version, version) then Some(releases[0])
    else Picked(releases[1..], version)
  }

  lemma {:induction false} PickedIsFirst(releases: seq<Release>, version: Option<Version>)
    ensures match Picked(releases, version)
            case Some(r) => r in releases && Usable(r) && SameVersion(r.version, version)
            case None => forall e | e in releases :: !(Usable(e) && SameVersion(e.version, version))
  {
    if releases != [] {
      PickedIsFirst(releases[1..], version);
    }
  }

  /** Of several releases of the newest version the sort puts the first one first. */
  lemma {:induction false} HeadIsFirstOfItsVersion(releases: seq<Release>)
    requires releases != [] && forall r | r in releases :: Usable(r)
    ensures Picked(releases, NewestFirst(releases)[0].version) == Some(NewestFirst(releases)[0])
  {
    var first := releases[0];
    assert first in releases;
    OrderIsTotalPreorder(first.version.value, first.version.value, first.version.value);
    if |releases| > 1 {
      HeadIsFirstOfItsVersion(releases[1..]);
      var head := NewestFirst(releases[1..])[0];
      assert head in NewestFirst(releases[1..]) && head in releases;
      OrderIsTotalPreorder(first.version.value, head.version.value, first.version.value);
      hide Order;
    }
  }

  /** The eligible releases keep their order: the first record of a version, if eligible, is the first
      eligible one of it. */
  lemma {:induction false} FirstStaysFirst(releases: seq<Release>, current: Option<Version>, beta: bool, version: Option<Version>)
    requires Picked(releases, version).Some? && Eligible(Picked(releases, version).value, current, beta)
    ensures Picked(EligibleOf(releases, current, beta), version) == Picked(releases, version)
  {
    hide SameVersion, Newer, IsPrerelease;
    if !(!releases[0].draft && SameVersion(releases[0].version, version)) {
      FirstStaysFirst(releases[1..], current, beta, version);
    }
    assert Eligible(releases[0], current, beta) ==> !releases[0].draft;
    var rest := EligibleOf(releases[1..], current, beta);
    assert ([releases[0]] + rest)[1..] == rest;
  }

  /** Unpinned, Update's pick is what was offered exactly when it is itself eligible. */
  lemma UnpinnedPick(releases: seq<Release>, current: Option<Version>, beta: bool)
    requires Choose(releases, current, Rules(beta, NoPin)).Offer?
    ensures var offered := Choose(releases, current, Rules(beta, NoPin)).release;
            var pick := Picked(releases, offered.version);
            && pick.Some? && Usable(pick.value) && SameVersion(pick.value.version, offered.version)
            && (pick == Some(offered) <==> Eligible(pick.value, current, beta))
  {
    var newer := EligibleOf(releases, current, beta);
    var offered := NewestFirst(newer)[0];
    OffersTheNewestEligible(releases, current, beta);
    HeadIsFirstOfItsVersion(newer);
    PickedIsFirst(releases, offered.version);
    OrderIsTotalPreorder(offered.version.value, offered.version.value, offered.version.value);
    if Eligible(Picked(releases, offered.version).value, current, beta) {
      FirstStaysFirst(releases, current, beta, offered.version);
    }
    hide Order, NewestFirst, EligibleOf, Picked;
  }

  /** A release of the offered version is eligible but for a pre-release's mark on the stable channel. */
  lemma EligibleButForTheMark(offered: Release, pick: Release, current: Option<Version>, beta: bool)
    requires Eligible(offered, current, beta) && Usable(pick) && SameVersion(pick.version, offered.version)
    ensures Eligible(pick, current, beta) <==> beta || !pick.prerelease
  {
    var v, w := pick.version.value, offered.version.value;
    Alike(v, w, current.value);
    SameMarks(v, w);
    hide Order;
  }

  /** A pin names one version, so its first record is the first of the version it has. */
  lemma {:induction false} PinnedPick(releases: seq<Release>, pin: Option<Version>)
    requires Pinned(releases, pin).Some?
    ensures Picked(releases, Pinned(releases, pin).value.version) == Pinned(releases, pin)
  {
    PinnedIsFirst(releases, pin);
    var pinned := Pinned(releases, pin).value;
    Alike(pinned.version.value, pin.value, pinned.version.value);
    if releases[0].version.Some? {
      Alike(pinned.version.value, pin.value, releases[0].version.value);
    }
    hide Order;
    if !(Usable(releases[0]) && SameVersion(releases[0].version, pin)) {
      PinnedPick(releases[1..], pin);
    }
  }

  /** What Update downloads of what was offered: under a pin, and on the beta channel, the very release;
      on the stable channel exactly when the first record of its version is not marked a pre-release. And
      a ready copy the same settings drop again is exactly one that was not the release offered. */
  lemma DownloadsWhatWasOffered(releases: seq<Release>, current: Option<Version>, rules: Rules)
    requires Choose(releases, current, rules).Offer?
    ensures var offered := Choose(releases, current, rules).release;
            var pick := Picked(releases, offered.version);
            && pick.Some?
            && (pick == Some(offered) <==> rules.pin.PinTo? || rules.beta || !pick.value.prerelease)
            && (pick == Some(offered) <==> ReadyAllowed(pick.value, current, rules))
  {
    var offered := Choose(releases, current, rules).release;
    OfferIsReadyAllowed(releases, current, rules);
    match rules.pin
    case NoPin =>
      UnpinnedPick(releases, current, rules.beta);
      OffersTheNewestEligible(releases, current, rules.beta);
      var pick := Picked(releases, offered.version).value;
      ReadyAllowedExactlyWhen(pick, current, rules);
      EligibleButForTheMark(offered, pick, current, rules.beta);
      assert rules == Rules(rules.beta, NoPin);
      hide Choose, Picked, Eligible, SameVersion;
    case PinTo(pin) =>
      PinnedPick(releases, pin);
  }

  /** Two records of one version can part the two: here the first is marked a pre-release, so the
      stable channel offers the second, Update downloads the first, and the re-check drops it. */
  lemma TwinReleasesPart()
    ensures var v := Some(Version(2, 0, 0, None, None, None));
            var current := Some(Version(1, 0, 0, None, None, None));
            var marked := Release("v2.0.0", v, false, true);
            var full := Release("2.0.0", v, false, false);
            var stable := Rules(false, NoPin);
            && Choose([marked, full], current, stable) == Offer(full)
            && Picked([marked, full], v) == Some(marked)
            && !ReadyAllowed(marked, current, stable)
  {
    var v := Version(2, 0, 0, None, None, None);
    var current := Version(1, 0, 0, None, None, None);
    var marked := Release("v2.0.0", Some(v), false, true);
    var full := Release("2.0.0", Some(v), false, false);
    OrderIsTotalPreorder(v, v, v);
    CompareRelease(OrderKey(v), OrderKey(current), v, current);
    assert Order(v, current) == 1;
    assert [marked, full][1..] == [full] && [full][1..] == [] && [marked][1..] == [];
    assert EligibleOf([full], Some(current), false) == [full];
    assert EligibleOf([marked, full], Some(current), false) == [full];
    assert NewestFirst([full]) == [full];
  }
}
