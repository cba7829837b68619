/**
 * The order the app's updater gives versions (desktop/appUpdate.js, orderKey and compareVersions),
 * against the order of PEP 440. A version arrives parsed, `None` standing for a text that names none.
 */
module Versions {
  import opened Options

  /** A pre-release's kind (alpha 0, beta 1, release candidate 2) and number. */
  datatype Pre = Pre(rank: nat, number: nat)

  datatype Version = Version(
    major: nat, minor: nat, patch: nat, pre: Option<Pre>, post: Option<nat>, dev: Option<nat>)

  /** One component of a key: a number, or an infinity. */
  datatype Part = Below | Num(n: nat) | Above

  type Key = seq<Part>

  predicate Less(p: Part, q: Part) {
    match p
    case Below => !q.Below?
    case Num(n) => q.Above? || (q.Num? && n < q.n)
    case Above => false
  }

  function DevPart(dev: Option<nat>): Part {
    if dev.Some? then Num(dev.value) else Above
  }

  function OrderKey(v: Version): Key {
    var release := [Num(v.major), Num(v.minor), Num(v.patch)];
    if v.pre.Some? then release + [Num(1), Num(v.pre.value.rank), Num(v.pre.value.number), DevPart(v.dev)]
    else if v.post.Some? then release + [Num(3), Num(v.post.value), DevPart(v.dev)]
    else if v.dev.Some? then release + [Num(0), Num(v.dev.value)]
    else release + [Num(2)]
  }

  function PartAt(key: Key, i: nat): Part {
    if i < |key| then key[i] else Below
  }

  /** How two keys compare from component *i* on, a missing component being below every other. */
  function CompareFrom(x: Key, y: Key, i: nat): int
    decreases (if |x| < |y| then |y| else |x|) - i
  {
    if i >= |x| && i >= |y| then 0
    else if PartAt(x, i) != PartAt(y, i) then (if Less(PartAt(x, i), PartAt(y, i)) then -1 else 1)
    else CompareFrom(x, y, i + 1)
  }

  /** -1, 0 or 1 as *v* is older than, the same as, or newer than *w*. */
  function Order(v: Version, w: Version): int {
    CompareFrom(OrderKey(v), OrderKey(w), 0)
  }

  /** `compareVersions`: None when either text names no version. */
  method CompareVersions(a: Option<Version>, b: Option<Version>) returns (order: Option<int>)
    ensures order == if a.Some? && b.Some? then Some(Order(a.value, b.value)) else None
  {
    if a.None? || b.None? {
      return None;
    }
    var kx := OrderKey(a.value);
    var ky := OrderKey(b.value);
    var i := 0;
    while i < |kx| || i < |ky|
      invariant 0 <= i
      invariant CompareFrom(kx, ky, 0) == CompareFrom(kx, ky, i)
      decreases |kx| + |ky| - i
    {
      var p := if i < |kx| then kx[i] else Below;
      var q := if i < |ky| then ky[i] else Below;
      if p != q {
        return Some(if Less(p, q) then -1 else 1);
      }
      i := i + 1;
    }
    return Some(0);
  }

  // ── A total preorder ──

  lemma {:induction false} CompareFlips(x: Key, y: Key, i: nat)
    ensures CompareFrom(x, y, i) == -CompareFrom(y, x, i)
    decreases |x| + |y| - i
  {
    if i < |x| || i < |y| {
      CompareFlips(x, y, i + 1);
    }
  }

  lemma {:induction false} CompareChains(x: Key, y: Key, z: Key, i: nat)
    requires CompareFrom(x, y, i) <= 0 && CompareFrom(y, z, i) <= 0
    ensures CompareFrom(x, z, i) <= 0
    ensures CompareFrom(x, z, i) == 0 ==> CompareFrom(x, y, i) == 0 && CompareFrom(y, z, i) == 0
    decreases |x| + |y| + |z| - i
  {
    if i < |x| || i < |y| || i < |z| {
      if PartAt(x, i) == PartAt(y, i) == PartAt(z, i) {
        CompareChains(x, y, z, i + 1);
      }
    }
  }

  lemma {:induction false} CompareSelf(x: Key, i: nat)
    ensures CompareFrom(x, x, i) == 0
    decreases |x| - i
  {
    if i < |x| {
      CompareSelf(x, i + 1);
    }
  }

  /** The order is a total preorder. */
  lemma OrderIsTotalPreorder(u: Version, v: Version, w: Version)
    ensures Order(u, u) == 0
    ensures Order(u, v) == -Order(v, u) && Order(u, v) in {-1, 0, 1}
    ensures Order(u, v) <= 0 && Order(v, w) <= 0 ==> Order(u, w) <= 0
    ensures Order(u, v) <= 0 && Order(v, w) < 0 ==> Order(u, w) < 0
    ensures Order(u, v) < 0 && Order(v, w) <= 0 ==> Order(u, w) < 0
  {
    CompareSelf(OrderKey(u), 0);
    CompareFlips(OrderKey(u), OrderKey(v), 0);
    CompareIsSign(OrderKey(u), OrderKey(v), 0);
    if Order(u, v) <= 0 && Order(v, w) <= 0 {
      CompareChains(OrderKey(u), OrderKey(v), OrderKey(w), 0);
    }
  }

  /** Versions that compare as one compare alike with every other. */
  lemma Alike(u: Version, v: Version, w: Version)
    requires Order(u, v) == 0
    ensures Order(u, w) == Order(v, w) && Order(w, u) == Order(w, v)
  {
    hide Order;
    OrderIsTotalPreorder(u, v, w);
    OrderIsTotalPreorder(v, u, w);
    OrderIsTotalPreorder(w, u, v);
    OrderIsTotalPreorder(w, v, u);
  }

  lemma {:induction false} SameParts(x: Key, y: Key, i: nat, k: nat)
    requires CompareFrom(x, y, i) == 0 && i <= k && (k < |x| || k < |y|)
    ensures PartAt(x, k) == PartAt(y, k)
    decreases k - i
  {
    if i < k {
      SameParts(x, y, i + 1, k);
    }
  }

  /** Versions that compare as one are alike in having a pre-release, and a development release. */
  lemma SameMarks(v: Version, w: Version)
    requires Order(v, w) == 0
    ensures (v.pre.Some? <==> w.pre.Some?) && (v.dev.Some? <==> w.dev.Some?)
  {
    var x, y := OrderKey(v), OrderKey(w);
    SameParts(x, y, 0, 3);
    hide CompareFrom;
    SameLast(v, w, x, y);
  }

  lemma SameLast(v: Version, w: Version, x: Key, y: Key)
    requires Order(v, w) == 0 && x == OrderKey(v) && y == OrderKey(w) && PartAt(x, 3) == PartAt(y, 3)
    ensures (v.pre.Some? <==> w.pre.Some?) && (v.dev.Some? <==> w.dev.Some?)
  {
    if v.pre.Some? {
      SameParts(x, y, 0, 6);
    } else if v.post.Some? {
      SameParts(x, y, 0, 5);
    }
    hide CompareFrom;
  }

  lemma {:induction false} CompareIsSign(x: Key, y: Key, i: nat)
    ensures CompareFrom(x, y, i) in {-1, 0, 1}
    decreases |x| + |y| - i
  {
    if i < |x| || i < |y| {
      CompareIsSign(x, y, i + 1);
    }
  }

  // ── PEP 440 ──

  /** The comparison key of PEP 440's order: a development release of no pre-release and no
      post-release is below every pre-release of its release, a release without one above them all;
      no post-release is below every post-release; no development release above every one. */
  function PepKey(v: Version): Key {
    [Num(v.major), Num(v.minor), Num(v.patch)] +
    (if v.pre.Some? then [Num(v.pre.value.rank), Num(v.pre.value.number)]
     else if v.post.None? && v.dev.Some? then [Below, Below]
     else [Above, Above]) +
    [if v.post.Some? then Num(v.post.value) else Below, DevPart(v.dev)]
  }

  function PepOrder(v: Version, w: Version): int {
    CompareFrom(PepKey(v), PepKey(w), 0)
  }

  predicate SameRelease(v: Version, w: Version) {
    v.major == w.major && v.minor == w.minor && v.patch == w.patch
  }

  function Sign(p: Part, q: Part): int {
    if p == q then 0 else if Less(p, q) then -1 else 1
  }

  function PostPart(v: Version): Part {
    if v.post.Some? then Num(v.post.value) else Below
  }

  /** The two keys of versions of one release agree on their first three components. */
  lemma CompareRelease(x: Key, y: Key, v: Version, w: Version)
    requires |x| > 3 && |y| > 3
    requires x[..3] == [Num(v.major), Num(v.minor), Num(v.patch)] && y[..3] == [Num(w.major), Num(w.minor), Num(w.patch)]
    ensures CompareFrom(x, y, 0) ==
              if v.major != w.major then (if v.major < w.major then -1 else 1)
              else if v.minor != w.minor then (if v.minor < w.minor then -1 else 1)
              else if v.patch != w.patch then (if v.patch < w.patch then -1 else 1)
              else CompareFrom(x, y, 3)
  {
    assert x[0] == x[..3][0] && x[1] == x[..3][1] && x[2] == x[..3][2];
    assert y[0] == y[..3][0] && y[1] == y[..3][1] && y[2] == y[..3][2];
    assert CompareFrom(x, y, 2) == if x[2] != y[2] then (if Less(x[2], y[2]) then -1 else 1) else CompareFrom(x, y, 3);
    assert CompareFrom(x, y, 1) == if x[1] != y[1] then (if Less(x[1], y[1]) then -1 else 1) else CompareFrom(x, y, 2);
  }

  /** What is left to compare of two versions of one release, in the updater's key. */
  lemma OrderTail(v: Version, w: Version)
    ensures var x := OrderKey(v); var y := OrderKey(w);
            CompareFrom(x, y, 3) ==
              if v.pre.Some? && w.pre.Some? then
                if v.pre.value.rank != w.pre.value.rank then (if v.pre.value.rank < w.pre.value.rank then -1 else 1)
                else if v.pre.value.number != w.pre.value.number then (if v.pre.value.number < w.pre.value.number then -1 else 1)
                else Sign(DevPart(v.dev), DevPart(w.dev))
              else if v.pre.None? && w.pre.None? && v.post.Some? && w.post.Some? then
                if v.post.value != w.post.value then (if v.post.value < w.post.value then -1 else 1)
                else Sign(DevPart(v.dev), DevPart(w.dev))
              else if Phase(v) != Phase(w) then (if Phase(v) < Phase(w) then -1 else 1)
              else Sign(DevPart(v.dev), DevPart(w.dev))
  {
    var x := OrderKey(v);
    var y := OrderKey(w);
    assert x[3] == Num(Phase(v)) && y[3] == Num(Phase(w));
    assert CompareFrom(x, y, 7) == 0;
    assert CompareFrom(x, y, 6) == Sign(PartAt(x, 6), PartAt(y, 6));
    assert CompareFrom(x, y, 5) == if PartAt(x, 5) != PartAt(y, 5) then Sign(PartAt(x, 5), PartAt(y, 5)) else CompareFrom(x, y, 6);
    assert CompareFrom(x, y, 4) == if PartAt(x, 4) != PartAt(y, 4) then Sign(PartAt(x, 4), PartAt(y, 4)) else CompareFrom(x, y, 5);
  }

  /** Where a version stands within its release, by its suffixes. */
  function Phase(v: Version): nat {
    if v.pre.Some? then 1 else if v.post.Some? then 3 else if v.dev.Some? then 0 else 2
  }

  lemma PepTail(v: Version, w: Version)
    ensures var x := PepKey(v); var y := PepKey(w);
            CompareFrom(x, y, 3) ==
              if x[3] != y[3] then Sign(x[3], y[3])
              else if x[4] != y[4] then Sign(x[4], y[4])
              else if PostPart(v) != PostPart(w) then Sign(PostPart(v), PostPart(w))
              else Sign(DevPart(v.dev), DevPart(w.dev))
  {
    var x := PepKey(v);
    var y := PepKey(w);
    assert CompareFrom(x, y, 7) == 0;
    assert CompareFrom(x, y, 6) == Sign(x[6], y[6]);
    assert CompareFrom(x, y, 5) == if x[5] != y[5] then Sign(x[5], y[5]) else CompareFrom(x, y, 6);
    assert CompareFrom(x, y, 4) == if x[4] != y[4] then Sign(x[4], y[4]) else CompareFrom(x, y, 5);
  }

  /** The updater's order is PEP 440's on exactly the pairs it does not compare as two post-releases
      of one pre-release: the key of a version with a pre-release leaves its post-release out, so two
      such versions compare by their development releases alone. */
  lemma OrderIsPep440ExactlyWhen(v: Version, w: Version)
    ensures Order(v, w) == PepOrder(v, w) <==>
              !(&& SameRelease(v, w) && v.pre.Some? && v.pre == w.pre
                && PostPart(v) != PostPart(w) && Sign(PostPart(v), PostPart(w)) != Sign(DevPart(v.dev), DevPart(w.dev)))
  {
    CompareRelease(OrderKey(v), OrderKey(w), v, w);
    CompareRelease(PepKey(v), PepKey(w), v, w);
    OrderTail(v, w);
    PepTail(v, w);
  }

  /** So on versions without both a pre-release and a post-release the two orders are the same. */
  lemma OrderIsPep440(v: Version, w: Version)
    requires v.pre.None? || v.post.None?
    requires w.pre.None? || w.post.None?
    ensures Order(v, w) == PepOrder(v, w)
  {
    OrderIsPep440ExactlyWhen(v, w);
  }

  /** And `1.0.0a1.post1`, which PEP 440 puts after `1.0.0a1`, is the same version to the updater. */
  lemma PostOfPreIsLost()
    ensures var v := Version(1, 0, 0, Some(Pre(0, 1)), None, None);
            var w := v.(post := Some(1));
            Order(v, w) == 0 && PepOrder(v, w) == -1
  {
    var v := Version(1, 0, 0, Some(Pre(0, 1)), None, None);
    var w := v.(post := Some(1));
    assert OrderKey(v) == OrderKey(w);
    CompareSelf(OrderKey(v), 0);
    CompareRelease(PepKey(v), PepKey(w), v, w);
    PepTail(v, w);
  }
}
