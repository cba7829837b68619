/**
 * `personalclaw://` links (desktop/deepLinks.js): the hash route each opens, the grammar every hash the
 * shell writes is held to, and the inbox where the newest accepted link waits.
 *
 * A character is a Unicode scalar value; lengths count UTF-16 code units, as the source's do.
 */
module DeepLinks {
  import opened Options
  import opened Texts
  import opened PercentText

  const PREFIX := "personalclaw://"

  /** The dashboard's routes. */
  predicate IsRoute(name: string) {
    IsWorkRoute(name) || IsToolRoute(name) || IsOtherRoute(name)
  }

  predicate IsWorkRoute(name: string) {
    name in {"dashboard", "chat", "projects", "library", "knowledge", "memory", "tasks", "inbox", "automations", "triggers"}
  }

  predicate IsToolRoute(name: string) {
    name in {"files", "artifacts", "terminal", "capabilities", "agents", "tools", "skills", "learning", "prompts", "workflows"}
  }

  predicate IsOtherRoute(name: string) {
    name in {"apps", "settings", "notifications", "discover", "loop", "loops", "code", "app", "mission-control"}
  }

  const LINK_LIMIT: nat := 40000
  const SEGMENTS_LIMIT: nat := 4
  const SEGMENT_LIMIT: nat := 128
  const ID_LIMIT: nat := 128
  const WORD_LIMIT: nat := 32
  const FILE_LIMIT: nat := 1024
  const PROMPT_LIMIT: nat := 4000

  /** The parameters a link may carry, in the order the hash writes them. */
  const PARAMETERS: seq<string> := ["project", "mode", "pane", "file", "diff", "commit", "task", "prompt"]

  datatype Outcome<+T> = Taken(value: T) | Refused(reason: string)

  datatype Link = Link(route: string, segments: seq<string>, given: map<string, string>)

  // ── The shapes of values ──

  predicate All(s: string, ok: char -> bool) {
    forall i | 0 <= i < |s| :: ok(s[i])
  }

  predicate SegmentChar(c: char) {
    IsAlnum(c) || c in "._:@~-"
  }

  predicate IdChar(c: char) {
    IsAlnum(c) || c in "._:-"
  }

  predicate WordChar(c: char) {
    'a' <= c <= 'z' || '0' <= c <= '9' || c == '-'
  }

  predicate CommitChar(c: char) {
    '0' <= c <= '9' || 'a' <= c <= 'f'
  }

  predicate UnsafePathChar(c: char) {
    var n := c as int;
    n <= 0x1f || 0x7f <= n <= 0x9f || 0x202a <= n <= 0x202e || 0x2066 <= n <= 0x2069
  }

  predicate UnsafeTextChar(c: char) {
    UnsafePathChar(c) && c != '\t' && c != '\n' && c != '\r'
  }

  predicate IsId(v: string) {
    v != "" && Units(v) <= ID_LIMIT && All(v, IdChar)
  }

  predicate IsWord(v: string) {
    v != "" && Units(v) <= WORD_LIMIT && 'a' <= v[0] <= 'z' && All(v, WordChar)
  }

  predicate IsRelativePath(v: string) {
    && (v == "" || (v[0] != '/' && v[0] != '~'))
    && !(|v| >= 2 && ('A' <= v[0] <= 'Z' || 'a' <= v[0] <= 'z') && v[1] == ':')
    && Free(v, '\\')
    && var parts := Split(v, '/'); forall i | 0 <= i < |parts| :: parts[i] != ".."
  }

  predicate IsPath(v: string) {
    Units(v) <= FILE_LIMIT && All(v, c => !UnsafePathChar(c)) && IsRelativePath(v)
  }

  predicate ValueOk(key: string, v: string) {
    if key == "project" || key == "task" then IsId(v)
    else if key == "mode" || key == "pane" then IsWord(v)
    else if key == "file" || key == "diff" then IsPath(v)
    else if key == "commit" then 7 <= |v| <= 40 && All(v, CommitChar)
    else Units(v) <= PROMPT_LIMIT && All(v, c => !UnsafeTextChar(c))
  }

  /** A prompt fills only a new thread's composer, and a cockpit's parameters open only in one. */
  predicate PromptFits(route: string, segments: seq<string>) {
    route == "chat" && segments == ["new"]
  }

  predicate CockpitFits(route: string, segments: seq<string>) {
    route == "code" && |segments| == 1 && segments[0] != "history"
  }

  predicate CockpitOnly(key: string) {
    key == "diff" || key == "commit" || key == "task"
  }

  function Centres(given: map<string, string>): nat {
    (if "file" in given then 1 else 0) + (if "diff" in given then 1 else 0) + (if "commit" in given then 1 else 0)
  }

  // ── Reading a link ──

  function SegmentOf(piece: string): Outcome<string> {
    var seg := Decode(piece);
    if seg.None? || seg.value == "" || seg.value == "." || seg.value == ".." then Refused("a path segment is not one")
    else if Units(seg.value) > SEGMENT_LIMIT then Refused("a path segment is too long")
    else if !All(seg.value, SegmentChar) then Refused("a path segment holds a character a link may not carry")
    else Taken(seg.value)
  }

  /** The segments, or the first refusal. */
  function SegmentsOf(pieces: seq<string>): Outcome<seq<string>> {
    if pieces == [] then Taken([])
    else
      var before := SegmentsOf(pieces[..|pieces| - 1]);
      if before.Refused? then before
      else
        var last := SegmentOf(pieces[|pieces| - 1]);
        if last.Refused? then Refused(last.reason) else Taken(before.value + [last.value])
  }

  function WithPair(route: string, segments: seq<string>, given: map<string, string>, pair: string): Outcome<map<string, string>> {
    var eq := IndexOf(pair, '=');
    if eq == |pair| || eq == 0 then Refused("a parameter has no value")
    else
      var key, value := DecodeForm(pair[..eq]), DecodeForm(pair[eq + 1..]);
      if key.None? || value.None? then Refused("a parameter is not encoded as one")
      else if key.value !in PARAMETERS then Refused("a parameter the app does not take")
      else if key.value in given then Refused("a parameter is given twice")
      else if value.value == "" then Refused("a parameter has no value")
      else if key.value == "prompt" && !PromptFits(route, segments) then Refused("a prompt fills only a new thread's composer")
      else if CockpitOnly(key.value) && !CockpitFits(route, segments) then
        Refused("a " + key.value + " opens only in a code cockpit")
      else if !ValueOk(key.value, value.value) then Refused("the " + key.value + " parameter is not one")
      else Taken(given[key.value := value.value])
  }

  function GivenOf(route: string, segments: seq<string>, pairs: seq<string>): Outcome<map<string, string>> {
    if pairs == [] then Taken(map[])
    else
      var before := GivenOf(route, segments, pairs[..|pairs| - 1]);
      if before.Refused? then before else WithPair(route, segments, before.value, pairs[|pairs| - 1])
  }

  function RouteOf(name: string): string {
    if name == "threads" then "chat" else name
  }

  function PiecesOf(parts: seq<string>): seq<string>
    requires parts != []
  {
    if parts[1..] == [""] then [] else parts[1..]
  }

  function PairsOf(query: string): seq<string> {
    if query == "" then [] else Split(query, '&')
  }

  /** The link between its prefix and its end. */
  function ParseRest(rest: string): Outcome<Link> {
    var q := IndexOf(rest, '?');
    var parts := Split(rest[..q], '/');
    var query := if q < |rest| then rest[q + 1..] else "";
    var route := RouteOf(parts[0]);
    if !IsRoute(route) then Refused("no route the app has")
    else if |PiecesOf(parts)| > SEGMENTS_LIMIT then Refused("too many path segments")
    else
      var segments := SegmentsOf(PiecesOf(parts));
      if segments.Refused? then Refused(segments.reason)
      else
        var given := GivenOf(route, segments.value, PairsOf(query));
        if given.Refused? then Refused(given.reason)
        else if Centres(given.value) > 1 then Refused("a link names one of file, diff and commit at most")
        else Taken(Link(route, segments.value, given.value))
  }

  function Parse(raw: string): Outcome<Link> {
    if raw == "" then Refused("not a link")
    else if Units(raw) > LINK_LIMIT then Refused("the link is too long")
    else if |raw| < |PREFIX| || Lower(raw[..|PREFIX|]) != PREFIX then Refused("not a personalclaw:// link")
    else if !Free(raw, '#') then Refused("a link carries no fragment")
    else ParseRest(raw[|PREFIX|..])
  }

  // ── The hash it opens ──

  function Encoded(segments: seq<string>): (encoded: seq<string>)
    ensures |encoded| == |segments|
  {
    seq(|segments|, i requires 0 <= i < |segments| => Encode(segments[i]))
  }

  function PathOf(link: Link): string {
    Join([link.route] + Encoded(link.segments), '/')
  }

  function PairText(key: string, value: string): string {
    FormEncode(key) + "=" + FormEncode(value)
  }

  /** The pairs of the first *n* parameters that are given. */
  function GivenPairs(given: map<string, string>, n: nat): seq<string>
    requires n <= |PARAMETERS|
  {
    if n == 0 then []
    else
      var before, key := GivenPairs(given, n - 1), PARAMETERS[n - 1];
      if key in given then before + [PairText(key, given[key])] else before
  }

  function QueryOf(link: Link): string {
    Join(GivenPairs(link.given, |PARAMETERS|), '&')
  }

  /** What a hash writes after its `#/`. */
  function RestOf(link: Link): string {
    PathOf(link) + if QueryOf(link) == "" then "" else "?" + QueryOf(link)
  }

  function HashOf(link: Link): string {
    "#/" + RestOf(link)
  }

  /** What a link opens, or why it opens nothing. */
  function Opens(raw: string): Outcome<(string, string)> {
    match Parse(raw)
    case Taken(link) => Taken((link.route, HashOf(link)))
    case Refused(reason) => Refused(reason)
  }

  // ── The same, as it runs ──

  lemma {:induction false} FirstRefusalStands(pieces: seq<string>, i: nat)
    requires i <= |pieces| && SegmentsOf(pieces[..i]).Refused?
    ensures SegmentsOf(pieces) == SegmentsOf(pieces[..i])
  {
    if i == |pieces| {
      assert pieces[..i] == pieces;
    } else {
      var n := |pieces| - 1;
      assert pieces[..n][..i] == pieces[..i];
      FirstRefusalStands(pieces[..n], i);
    }
  }

  lemma {:induction false} FirstBadPairStands(route: string, segments: seq<string>, pairs: seq<string>, i: nat)
    requires i <= |pairs| && GivenOf(route, segments, pairs[..i]).Refused?
    ensures GivenOf(route, segments, pairs) == GivenOf(route, segments, pairs[..i])
  {
    if i == |pairs| {
      assert pairs[..i] == pairs;
    } else {
      var n := |pairs| - 1;
      assert pairs[..n][..i] == pairs[..i];
      hide WithPair;
      FirstBadPairStands(route, segments, pairs[..n], i);
    }
  }

  method GatherSegments(pieces: seq<string>) returns (segments: Outcome<seq<string>>)
    ensures segments == SegmentsOf(pieces)
  {
    hide SegmentOf;
    var gathered, i := [], 0;
    while i < |pieces|
      invariant 0 <= i <= |pieces|
      invariant SegmentsOf(pieces[..i]) == Taken(gathered)
    {
      assert pieces[..i + 1][..i] == pieces[..i];
      var seg := SegmentOf(pieces[i]);
      if seg.Refused? {
        FirstRefusalStands(pieces, i + 1);
        return Refused(seg.reason);
      }
      gathered := gathered + [seg.value];
      i := i + 1;
    }
    assert pieces[..i] == pieces;
    return Taken(gathered);
  }

  method GatherGiven(route: string, segments: seq<string>, pairs: seq<string>) returns (given: Outcome<map<string, string>>)
    ensures given == GivenOf(route, segments, pairs)
  {
    hide WithPair;
    var gathered, i := map[], 0;
    while i < |pairs|
      invariant 0 <= i <= |pairs|
      invariant GivenOf(route, segments, pairs[..i]) == Taken(gathered)
    {
      assert pairs[..i + 1][..i] == pairs[..i];
      var more := WithPair(route, segments, gathered, pairs[i]);
      if more.Refused? {
        FirstBadPairStands(route, segments, pairs, i + 1);
        return more;
      }
      gathered := more.value;
      i := i + 1;
    }
    assert pairs[..i] == pairs;
    return Taken(gathered);
  }

  method ParseDeepLink(raw: string) returns (result: Outcome<(string, string)>)
    ensures result == Opens(raw)
  {
    hide Units, Lower, SegmentsOf, GivenOf, Split, HashOf, Centres, IsRoute;
    if raw == "" {
      return Refused("not a link");
    }
    if Units(raw) > LINK_LIMIT {
      return Refused("the link is too long");
    }
    if |raw| < |PREFIX| || Lower(raw[..|PREFIX|]) != PREFIX {
      return Refused("not a personalclaw:// link");
    }
    if !Free(raw, '#') {
      return Refused("a link carries no fragment");
    }
    var rest := raw[|PREFIX|..];
    var qAt := IndexOf(rest, '?');
    var parts := Split(rest[..qAt], '/');
    var queryPart := if qAt < |rest| then rest[qAt + 1..] else "";
    var route := RouteOf(parts[0]);
    if !IsRoute(route) {
      return Refused("no route the app has");
    }
    var pieces := PiecesOf(parts);
    if |pieces| > SEGMENTS_LIMIT {
      return Refused("too many path segments");
    }
    var segments := GatherSegments(pieces);
    if segments.Refused? {
      return Refused(segments.reason);
    }
    var given := GatherGiven(route, segments.value, PairsOf(queryPart));
    if given.Refused? {
      return Refused(given.reason);
    }
    if Centres(given.value) > 1 {
      return Refused("a link names one of file, diff and commit at most");
    }
    return Taken((route, HashOf(Link(route, segments.value, given.value))));
  }

  // ── What an accepted link is ──

  predicate SegmentGood(seg: string) {
    seg != "" && seg != "." && seg != ".." && Units(seg) <= SEGMENT_LIMIT && All(seg, SegmentChar)
  }

  predicate AllGood(segments: seq<string>) {
    forall i | 0 <= i < |segments| :: SegmentGood(segments[i])
  }

  predicate ParameterGood(route: string, segments: seq<string>, key: string, value: string) {
    && key in PARAMETERS && value != "" && ValueOk(key, value)
    && (key == "prompt" ==> PromptFits(route, segments))
    && (CockpitOnly(key) ==> CockpitFits(route, segments))
  }

  predicate GivenGood(route: string, segments: seq<string>, given: map<string, string>) {
    forall key <- given :: ParameterGood(route, segments, key, given[key])
  }

  /** What the shell may open: it names a route and at most four segments, and each parameter is one the
      route takes. */
  predicate Allowed(link: Link) {
    && IsRoute(link.route)
    && |link.segments| <= SEGMENTS_LIMIT && AllGood(link.segments)
    && GivenGood(link.route, link.segments, link.given)
    && Centres(link.given) <= 1
  }

  lemma {:induction false} SegmentsAreGood(pieces: seq<string>)
    requires SegmentsOf(pieces).Taken?
    ensures |SegmentsOf(pieces).value| == |pieces| && AllGood(SegmentsOf(pieces).value)
  {
    if pieces != [] {
      SegmentsAreGood(pieces[..|pieces| - 1]);
      hide Decode, Units, All;
    }
  }

  lemma {:induction false} GivenIsGood(route: string, segments: seq<string>, pairs: seq<string>)
    requires GivenOf(route, segments, pairs).Taken?
    ensures GivenGood(route, segments, GivenOf(route, segments, pairs).value)
  {
    if pairs != [] {
      GivenIsGood(route, segments, pairs[..|pairs| - 1]);
      hide DecodeForm, ValueOk;
    }
  }

  lemma AcceptedRest(rest: string)
    requires ParseRest(rest).Taken?
    ensures Allowed(ParseRest(rest).value)
  {
    hide Split, SegmentsOf, GivenOf, IsRoute, AllGood, GivenGood, Centres, PiecesOf, PairsOf, RouteOf;
    var link, q := ParseRest(rest).value, IndexOf(rest, '?');
    var pieces := PiecesOf(Split(rest[..q], '/'));
    SegmentsAreGood(pieces);
    GivenIsGood(link.route, link.segments, PairsOf(if q < |rest| then rest[q + 1..] else ""));
  }

  /** Only what is allowed is accepted. */
  lemma AcceptedIsAllowed(raw: string)
    requires Parse(raw).Taken?
    ensures Allowed(Parse(raw).value)
  {
    hide ParseRest, Allowed, Units, Lower, Free;
    AcceptedRest(raw[|PREFIX|..]);
  }

  // ── Reading back what is written ──

  predicate IsRouteName(r: string) {
    r != "" && 'a' <= r[0] <= 'z' && forall i | 0 <= i < |r| :: 'a' <= r[i] <= 'z' || r[i] == '-'
  }

  lemma WorkRoutesAreNames(r: string)
    requires IsWorkRoute(r)
    ensures IsRouteName(r) && RouteOf(r) == r
  {
  }

  lemma ToolRoutesAreNames(r: string)
    requires IsToolRoute(r)
    ensures IsRouteName(r) && RouteOf(r) == r
  {
  }

  lemma OtherRoutesAreNames(r: string)
    requires IsOtherRoute(r)
    ensures IsRouteName(r) && RouteOf(r) == r
  {
  }

  lemma RoutesAreNames(r: string)
    requires IsRoute(r)
    ensures IsRouteName(r) && RouteOf(r) == r
  {
    hide IsWorkRoute, IsToolRoute, IsOtherRoute, IsRouteName, RouteOf;
    if IsWorkRoute(r) {
      WorkRoutesAreNames(r);
    } else if IsToolRoute(r) {
      ToolRoutesAreNames(r);
    } else {
      OtherRoutesAreNames(r);
    }
  }

  predicate PathPiece(s: string) {
    s != "" && Free(s, '/') && Free(s, '?') && Free(s, '#')
  }

  lemma EncodedIsPiece(s: string)
    requires s != ""
    ensures PathPiece(Encode(s))
  {
    EncodedChars(s);
    hide Encode;
  }

  lemma SegmentsArePieces(segments: seq<string>)
    requires AllGood(segments)
    ensures forall i | 0 <= i < |segments| :: PathPiece(Encoded(segments)[i])
  {
    hide Encode, PathPiece;
    forall i | 0 <= i < |segments|
      ensures PathPiece(Encode(segments[i]))
    {
      assert SegmentGood(segments[i]);
      EncodedIsPiece(segments[i]);
    }
  }

  lemma RouteIsPiece(route: string)
    requires IsRoute(route)
    ensures PathPiece(route)
  {
    RoutesAreNames(route);
    hide IsRoute;
  }

  lemma JoinedPieces(parts: seq<string>)
    requires parts != [] && forall i | 0 <= i < |parts| :: PathPiece(parts[i])
    ensures Split(Join(parts, '/'), '/') == parts && PiecesOf(parts) == parts[1..]
    ensures Free(Join(parts, '/'), '?') && Free(Join(parts, '/'), '#')
  {
    hide Split, Join;
    SplitOfJoin(parts, '/');
    JoinFree(parts, '/', '?');
    JoinFree(parts, '/', '#');
    assert |parts| > 1 ==> parts[1..][0] == parts[1];
  }

  lemma PathParts(link: Link)
    requires Allowed(link)
    ensures var parts := [link.route] + Encoded(link.segments);
            && Split(PathOf(link), '/') == parts && PiecesOf(parts) == Encoded(link.segments)
            && Free(PathOf(link), '?') && Free(PathOf(link), '#')
  {
    hide IsRoute, AllGood, Encoded, Split, Join, PathPiece, PiecesOf, GivenGood, Free;
    var parts := [link.route] + Encoded(link.segments);
    RouteIsPiece(link.route);
    SegmentsArePieces(link.segments);
    assert parts[1..] == Encoded(link.segments);
    JoinedPieces(parts);
  }

  lemma {:induction false} SegmentsComeBack(segments: seq<string>)
    requires AllGood(segments)
    ensures SegmentsOf(Encoded(segments)) == Taken(segments)
  {
    hide Decode, Encode, Units, All;
    if segments != [] {
      var front, last := segments[..|segments| - 1], segments[|segments| - 1];
      assert SegmentGood(last);
      SegmentsComeBack(front);
      EncodedComesBack(last);
      assert Encoded(segments)[..|segments| - 1] == Encoded(front);
      assert front + [last] == segments;
    }
  }

  lemma NoEquals(s: string)
    ensures Free(FormEncode(s), '=')
  {
    FormEncodedChars(s);
    hide FormEncode;
  }

  lemma WithGoodPair(route: string, segments: seq<string>, before: map<string, string>,
                     left: string, right: string, key: string, value: string)
    requires left != "" && Free(left, '=') && DecodeForm(left) == Some(key) && DecodeForm(right) == Some(value)
    requires ParameterGood(route, segments, key, value) && key !in before
    ensures WithPair(route, segments, before, left + "=" + right) == Taken(before[key := value])
  {
    hide DecodeForm, ValueOk, CockpitOnly, CockpitFits, PromptFits, PARAMETERS;
    var pair := left + "=" + right;
    IndexAfter(left, '=', right);
    hide Free;
    assert pair[..|left|] == left;
    assert pair[|left| + 1..] == right;
  }

  lemma GivenIsGoodAt(link: Link, key: string)
    requires Allowed(link) && key in link.given
    ensures ParameterGood(link.route, link.segments, key, link.given[key])
  {
    hide ParameterGood, IsRoute, AllGood, Centres;
  }

  lemma PairComesBack(link: Link, before: map<string, string>, key: string)
    requires Allowed(link) && key in link.given && key !in before && key != ""
    ensures WithPair(link.route, link.segments, before, PairText(key, link.given[key])) == Taken(before[key := link.given[key]])
  {
    var value := link.given[key];
    hide Allowed, ParameterGood, FormEncode, DecodeForm, WithPair, Free;
    GivenIsGoodAt(link, key);
    FormNotEmpty(key);
    NoEquals(key);
    FormComesBack(key);
    FormComesBack(value);
    WithGoodPair(link.route, link.segments, before, FormEncode(key), FormEncode(value), key, value);
  }

  lemma FormNotEmpty(s: string)
    requires s != ""
    ensures FormEncode(s) != ""
  {
    PercentNotEmpty(s[0]);
    hide Percent, Utf8;
  }

  lemma PairIsPlain(key: string, value: string)
    ensures Free(PairText(key, value), '&') && Free(PairText(key, value), '#') && Free(PairText(key, value), '?')
    ensures PairText(key, value) != ""
  {
    FormEncodedChars(key);
    FormEncodedChars(value);
    hide FormEncode;
  }

  predicate PlainPairs(pairs: seq<string>) {
    forall i | 0 <= i < |pairs| :: Free(pairs[i], '&') && Free(pairs[i], '#') && Free(pairs[i], '?') && pairs[i] != ""
  }

  function UpTo(given: map<string, string>, n: nat): map<string, string>
    requires n <= |PARAMETERS|
  {
    map key | key in given && key in PARAMETERS[..n] :: given[key]
  }

  lemma ParametersDiffer()
    ensures forall i, j | 0 <= i < j < |PARAMETERS| :: PARAMETERS[i] != PARAMETERS[j]
    ensures forall i | 0 <= i < |PARAMETERS| :: PARAMETERS[i] != ""
  {
  }

  lemma PairsGrow(link: Link, before: map<string, string>, pairs: seq<string>, key: string)
    requires Allowed(link) && key in link.given && key !in before && key != "" && PlainPairs(pairs)
    requires GivenOf(link.route, link.segments, pairs) == Taken(before)
    ensures var more := pairs + [PairText(key, link.given[key])];
            PlainPairs(more) && GivenOf(link.route, link.segments, more) == Taken(before[key := link.given[key]])
  {
    hide WithPair, Allowed, PairText, Free;
    var pair := PairText(key, link.given[key]);
    PairIsPlain(key, link.given[key]);
    PairComesBack(link, before, key);
    assert (pairs + [pair])[..|pairs + [pair]| - 1] == pairs;
  }

  lemma UpToNext(given: map<string, string>, n: nat)
    requires 0 < n <= |PARAMETERS|
    ensures var key := PARAMETERS[n - 1];
            && key != "" && key !in UpTo(given, n - 1)
            && UpTo(given, n) == if key in given then UpTo(given, n - 1)[key := given[key]] else UpTo(given, n - 1)
  {
    ParametersDiffer();
    assert PARAMETERS[..n] == PARAMETERS[..n - 1] + [PARAMETERS[n - 1]];
    hide PARAMETERS;
  }

  lemma {:induction false} PairsComeBack(link: Link, n: nat)
    requires Allowed(link) && n <= |PARAMETERS|
    ensures PlainPairs(GivenPairs(link.given, n))
    ensures GivenOf(link.route, link.segments, GivenPairs(link.given, n)) == Taken(UpTo(link.given, n))
  {
    hide WithPair, Allowed, PairText, Free;
    if n == 0 {
      assert UpTo(link.given, 0) == map[];
    } else {
      PairsComeBack(link, n - 1);
      UpToNext(link.given, n);
      hide UpTo, PARAMETERS, GivenOf, PlainPairs;
      if PARAMETERS[n - 1] in link.given {
        PairsGrow(link, UpTo(link.given, n - 1), GivenPairs(link.given, n - 1), PARAMETERS[n - 1]);
      }
    }
  }

  lemma QueryComesBack(link: Link)
    requires Allowed(link)
    ensures GivenOf(link.route, link.segments, PairsOf(QueryOf(link))) == Taken(link.given)
    ensures Free(QueryOf(link), '#')
  {
    var pairs := GivenPairs(link.given, |PARAMETERS|);
    PairsComeBack(link, |PARAMETERS|);
    assert UpTo(link.given, |PARAMETERS|) == link.given by {
      assert PARAMETERS[..|PARAMETERS|] == PARAMETERS;
      assert forall key <- link.given :: key in PARAMETERS;
    }
    hide GivenOf, GivenPairs, Allowed, UpTo, PARAMETERS;
    JoinFree(pairs, '&', '#');
    if pairs != [] {
      SplitOfJoin(pairs, '&');
      JoinEnds(pairs, '&');
    }
  }

  lemma RestSplits(path: string, query: string)
    requires Free(path, '?')
    ensures var rest := path + if query == "" then "" else "?" + query;
            var q := IndexOf(rest, '?');
            rest[..q] == path && (if q < |rest| then rest[q + 1..] else "") == query
  {
    if query == "" {
      assert path + "" == path;
      assert IndexOf(path, '?') == |path|;
    } else {
      var rest := path + "?" + query;
      assert path + ("?" + query) == rest;
      IndexAfter(path, '?', query);
      assert rest[..|path|] == path && rest[|path| + 1..] == query;
    }
  }

  lemma ParsedRest(path: string, query: string, parts: seq<string>, segments: seq<string>, given: map<string, string>)
    requires Free(path, '?') && parts != [] && Split(path, '/') == parts
    requires IsRoute(parts[0]) && RouteOf(parts[0]) == parts[0]
    requires |PiecesOf(parts)| <= SEGMENTS_LIMIT && SegmentsOf(PiecesOf(parts)) == Taken(segments)
    requires GivenOf(parts[0], segments, PairsOf(query)) == Taken(given) && Centres(given) <= 1
    ensures ParseRest(path + if query == "" then "" else "?" + query) == Taken(Link(parts[0], segments, given))
  {
    hide IsRoute, RouteOf, GivenOf, SegmentsOf, Centres, Split, PiecesOf, PairsOf, Free;
    RestSplits(path, query);
  }

  lemma RestComesBack(link: Link)
    requires Allowed(link)
    ensures ParseRest(RestOf(link)) == Taken(link)
    ensures Free(RestOf(link), '#')
  {
    hide IsRoute, GivenOf, SegmentsOf, PathOf, QueryOf, Encoded, AllGood, GivenGood, Centres, Split, PiecesOf, PairsOf, RouteOf, ParseRest;
    PathParts(link);
    QueryComesBack(link);
    SegmentsComeBack(link.segments);
    RoutesAreNames(link.route);
    hide IsRouteName;
    var parts := [link.route] + Encoded(link.segments);
    ParsedRest(PathOf(link), QueryOf(link), parts, link.segments, link.given);
  }

  // ── The hash grammar ──

  predicate HashSegmentChar(c: char) {
    IsAlnum(c) || c in "%._~:@!'()*-"
  }

  predicate HashQueryChar(c: char) {
    IsAlnum(c) || c in "%._~*+=&!'()-"
  }

  /** A route, then segments, then perhaps a query. */
  predicate IsHash(hash: string) {
    "#/" <= hash &&
    var rest := hash[2..];
    var q := IndexOf(rest, '?');
    var parts := Split(rest[..q], '/');
    && IsRouteName(parts[0])
    && (forall i | 1 <= i < |parts| :: parts[i] != "" && All(parts[i], HashSegmentChar))
    && (q < |rest| ==> q + 1 < |rest| && All(rest[q + 1..], HashQueryChar))
  }

  lemma {:induction false} JoinAll(parts: seq<string>, sep: char, ok: char -> bool)
    requires ok(sep) && forall i | 0 <= i < |parts| :: All(parts[i], ok)
    ensures All(Join(parts, sep), ok)
  {
    if |parts| > 1 {
      JoinAll(parts[1..], sep, ok);
    }
  }

  lemma {:induction false} PairsAreHash(given: map<string, string>, n: nat)
    requires n <= |PARAMETERS|
    ensures forall i | 0 <= i < |GivenPairs(given, n)| :: All(GivenPairs(given, n)[i], HashQueryChar)
  {
    if n > 0 {
      PairsAreHash(given, n - 1);
      var key := PARAMETERS[n - 1];
      hide PARAMETERS, FormEncode;
      if key in given {
        FormEncodedChars(key);
        FormEncodedChars(given[key]);
        assert All(PairText(key, given[key]), HashQueryChar);
      }
    }
  }

  lemma QueryIsHash(link: Link)
    ensures All(QueryOf(link), HashQueryChar)
  {
    PairsAreHash(link.given, |PARAMETERS|);
    hide GivenPairs, PARAMETERS, All;
    JoinAll(GivenPairs(link.given, |PARAMETERS|), '&', HashQueryChar);
  }

  lemma EncodedIsHash(seg: string)
    requires seg != ""
    ensures Encode(seg) != "" && All(Encode(seg), HashSegmentChar)
  {
    EncodedChars(seg);
    hide Encode;
  }

  lemma SegmentsAreHash(segments: seq<string>)
    requires AllGood(segments)
    ensures var encoded := Encoded(segments);
            forall i | 0 <= i < |encoded| :: encoded[i] != "" && All(encoded[i], HashSegmentChar)
  {
    hide Encode, HashSegmentChar, All;
    forall i | 0 <= i < |segments|
      ensures Encode(segments[i]) != "" && All(Encode(segments[i]), HashSegmentChar)
    {
      assert SegmentGood(segments[i]);
      EncodedIsHash(segments[i]);
    }
  }

  lemma HashOfParts(path: string, query: string, parts: seq<string>)
    requires Free(path, '?') && parts != [] && Split(path, '/') == parts && IsRouteName(parts[0])
    requires forall i | 1 <= i < |parts| :: parts[i] != "" && All(parts[i], HashSegmentChar)
    requires All(query, HashQueryChar)
    ensures IsHash("#/" + (path + if query == "" then "" else "?" + query))
  {
    hide IsRouteName, HashSegmentChar, HashQueryChar, All, Split, Free;
    RestSplits(path, query);
    var rest := path + if query == "" then "" else "?" + query;
    assert ("#/" + rest)[2..] == rest;
  }

  lemma HashIsAHash(link: Link)
    requires Allowed(link)
    ensures IsHash(HashOf(link))
  {
    hide IsRoute, AllGood, GivenGood, Centres, Encoded, Split, QueryOf, PathOf, HashSegmentChar, HashQueryChar, PiecesOf,
      All, RouteOf, IsHash;
    PathParts(link);
    RoutesAreNames(link.route);
    hide IsRouteName;
    QueryIsHash(link);
    SegmentsAreHash(link.segments);
    HashOfParts(PathOf(link), QueryOf(link), [link.route] + Encoded(link.segments));
  }

  // ── The canonical form ──

  /** The link a hash is read again as. */
  function LinkOf(hash: string): string
    requires "#/" <= hash
  {
    PREFIX + hash[2..]
  }

  predicate Ascii(c: char) {
    c as int < 0x80
  }

  lemma {:induction false} AsciiUnits(s: string)
    requires All(s, Ascii)
    ensures Units(s) == |s|
  {
    if s != "" {
      AsciiUnits(s[1..]);
    }
  }

  lemma QueryIsAscii(query: string)
    requires All(query, HashQueryChar)
    ensures All(query, Ascii)
  {
  }

  lemma EncodedIsAscii(s: string)
    ensures All(Encode(s), Ascii)
  {
    EncodedChars(s);
    hide Encode;
  }

  lemma PathIsAscii(link: Link)
    requires Allowed(link)
    ensures All(PathOf(link), Ascii)
  {
    var parts := [link.route] + Encoded(link.segments);
    RoutesAreNames(link.route);
    assert All(link.route, Ascii);
    hide IsRoute, Encode, Allowed, Join, All, IsRouteName;
    forall i | 0 <= i < |parts|
      ensures All(parts[i], Ascii)
    {
      if i > 0 {
        EncodedIsAscii(link.segments[i - 1]);
      }
    }
    JoinAll(parts, '/', Ascii);
  }

  lemma LinkIsAscii(link: Link)
    requires Allowed(link)
    ensures Units(LinkOf(HashOf(link))) == |LinkOf(HashOf(link))|
  {
    PathIsAscii(link);
    QueryIsHash(link);
    QueryIsAscii(QueryOf(link));
    hide PathOf, QueryOf, IsRoute, Allowed, HashQueryChar, Units;
    assert HashOf(link)[2..] == RestOf(link);
    AsciiUnits(LinkOf(HashOf(link)));
  }

  lemma LowerPrefix()
    ensures Lower(PREFIX) == PREFIX && Free(PREFIX, '#')
  {
  }

  lemma ParsedLink(rest: string)
    requires Units(PREFIX + rest) <= LINK_LIMIT && Free(rest, '#')
    ensures Parse(PREFIX + rest) == ParseRest(rest)
  {
    LowerPrefix();
    hide Units, Lower, ParseRest;
    var raw := PREFIX + rest;
    assert raw[..|PREFIX|] == PREFIX;
    assert raw[|PREFIX|..] == rest;
  }

  lemma HashReadsBack(link: Link)
    requires Allowed(link) && |LinkOf(HashOf(link))| <= LINK_LIMIT
    ensures Parse(LinkOf(HashOf(link))) == Taken(link)
  {
    hide RestOf, Units, ParseRest, Parse, Allowed, Free;
    LinkIsAscii(link);
    assert HashOf(link)[2..] == RestOf(link);
    RestComesBack(link);
    ParsedLink(RestOf(link));
  }

  /** Every accepted link's hash is a hash route, and reading that hash as a link opens the same one,
      exactly when it is within the link's limit: encoding may lengthen a link past it. */
  lemma HashIsCanonicalExactlyWhen(raw: string)
    requires Opens(raw).Taken?
    ensures IsHash(Opens(raw).value.1)
    ensures Opens(LinkOf(Opens(raw).value.1)) == Opens(raw) <==> |LinkOf(Opens(raw).value.1)| <= LINK_LIMIT
    ensures |LinkOf(Opens(raw).value.1)| > LINK_LIMIT ==> Opens(LinkOf(Opens(raw).value.1)) == Refused("the link is too long")
  {
    var link := Parse(raw).value;
    AcceptedIsAllowed(raw);
    HashIsAHash(link);
    LinkIsAscii(link);
    if |LinkOf(HashOf(link))| <= LINK_LIMIT {
      HashReadsBack(link);
    }
    hide Units, HashOf, Allowed, IsHash, Lower, ParseRest;
  }

  // ── The script that writes a hash ──

  /** A text inside JSON's quotes. */
  function Quoted(s: string): string {
    if s == "" then ""
    else (if s[0] == '"' || s[0] == '\\' then ['\\', s[0]] else [s[0]]) + Quoted(s[1..])
  }

  function HashAssignmentScript(hash: string): Option<string> {
    if IsHash(hash) then Some("window.location.hash = \"" + Quoted(hash) + "\";") else None
  }

  lemma {:induction false} QuotedPlain(s: string)
    requires Free(s, '"') && Free(s, '\\')
    ensures Quoted(s) == s
  {
    if s != "" {
      QuotedPlain(s[1..]);
      assert [s[0]] + s[1..] == s;
    }
  }

  /** Every accepted link gives a script, and the page is given that very hash. */
  lemma AcceptedLinksNeverThrow(raw: string)
    requires Opens(raw).Taken?
    ensures HashAssignmentScript(Opens(raw).value.1) == Some("window.location.hash = \"" + Opens(raw).value.1 + "\";")
  {
    HashIsCanonicalExactlyWhen(raw);
    HashHasNoQuote(Opens(raw).value.1);
    hide Opens, IsHash;
    QuotedPlain(Opens(raw).value.1);
  }

  predicate Unquoted(c: char) {
    c != '"' && c != '\\'
  }

  lemma NoneQuoted(s: string)
    requires All(s, HashSegmentChar) || All(s, HashQueryChar) || IsRouteName(s)
    ensures All(s, Unquoted)
  {
  }

  lemma HashPathUnquoted(path: string)
    requires var parts := Split(path, '/');
             && IsRouteName(parts[0])
             && forall i | 1 <= i < |parts| :: parts[i] != "" && All(parts[i], HashSegmentChar)
    ensures All(path, Unquoted)
  {
    hide Split, IsRouteName, HashSegmentChar, Join, All;
    var parts := Split(path, '/');
    forall i | 0 <= i < |parts|
      ensures All(parts[i], Unquoted)
    {
      NoneQuoted(parts[i]);
    }
    assert Unquoted('/');
    hide Unquoted;
    JoinOfSplit(path, '/');
    JoinAll(parts, '/', Unquoted);
  }

  lemma HashHasNoQuote(hash: string)
    requires IsHash(hash)
    ensures Free(hash, '"') && Free(hash, '\\')
  {
    assert All("", Unquoted);
    hide Split, IsRouteName, HashSegmentChar, HashQueryChar, All, Unquoted, Free;
    var rest := hash[2..];
    var q := IndexOf(rest, '?');
    HashPathUnquoted(rest[..q]);
    assert hash == "#/" + rest;
    if q < |rest| {
      NoneQuoted(rest[q + 1..]);
      assert rest == rest[..q] + "?" + rest[q + 1..];
      assert hash == "#/" + rest[..q] + "?" + rest[q + 1..];
      AllOfHash(hash, rest[..q], rest[q + 1..]);
    } else {
      assert rest == rest[..q];
      AllOfHash(hash, rest[..q], "");
    }
  }

  lemma AllOfHash(hash: string, path: string, query: string)
    requires hash == "#/" + path || hash == "#/" + path + "?" + query
    requires All(path, Unquoted) && All(query, Unquoted)
    ensures Free(hash, '"') && Free(hash, '\\')
  {
  }

  // ── Where links wait ──

  /** What the window gets when it can take one: the newest accepted link, once. */
  class Inbox {
    var pending: Option<string>
    /** The hashes handed on, in their order. */
    var delivered: seq<string>

    ghost function Now(): Waiting
      reads this
    {
      Waiting(pending, delivered)
    }

    constructor ()
      ensures Now() == Waiting(None, [])
    {
      pending, delivered := None, [];
    }

    method Flush(canDeliver: bool) returns (sent: bool)
      modifies this
      ensures Now() == Flushed(old(Now()), canDeliver)
      ensures sent <==> old(pending).Some? && canDeliver
    {
      if pending.None? || !canDeliver {
        return false;
      }
      var hash := pending.value;
      pending := None;
      delivered := delivered + [hash];
      return true;
    }

    method Receive(raw: string, canDeliver: bool) returns (accepted: bool)
      modifies this
      ensures Now() == Received(old(Now()), raw, canDeliver)
      ensures accepted <==> Opens(raw).Taken?
    {
      var result := ParseDeepLink(raw);
      if result.Refused? {
        return false;
      }
      pending := Some(result.value.1);
      var _ := Flush(canDeliver);
      return true;
    }
  }

  datatype Waiting = Waiting(pending: Option<string>, delivered: seq<string>)

  datatype Arrival = Receives(raw: string, canDeliver: bool) | Flushes(canDeliver: bool)

  function Flushed(s: Waiting, canDeliver: bool): Waiting {
    if s.pending.None? || !canDeliver then s else Waiting(None, s.delivered + [s.pending.value])
  }

  function Received(s: Waiting, raw: string, canDeliver: bool): Waiting {
    match Opens(raw)
    case Refused(_) => s
    case Taken((_, hash)) => Flushed(s.(pending := Some(hash)), canDeliver)
  }

  function After(arrivals: seq<Arrival>, n: nat): Waiting
    requires n <= |arrivals|
  {
    if n == 0 then Waiting(None, [])
    else
      match arrivals[n - 1]
      case Receives(raw, canDeliver) => Received(After(arrivals, n - 1), raw, canDeliver)
      case Flushes(canDeliver) => Flushed(After(arrivals, n - 1), canDeliver)
  }

  predicate Accepts(arrival: Arrival) {
    arrival.Receives? && Opens(arrival.raw).Taken?
  }

  /** The newest accepted of the first *n* arrivals. */
  function Newest(arrivals: seq<Arrival>, n: nat): (k: Option<nat>)
    requires n <= |arrivals|
    ensures k.Some? ==> k.value < n
  {
    if n == 0 then None else if Accepts(arrivals[n - 1]) then Some(n - 1) else Newest(arrivals, n - 1)
  }

  lemma {:induction false} NoneIsNewer(arrivals: seq<Arrival>, n: nat)
    requires n <= |arrivals|
    ensures var k := Newest(arrivals, n); forall j | (if k.Some? then k.value + 1 else 0) <= j < n :: !Accepts(arrivals[j])
  {
    hide Accepts;
    if n > 0 {
      NoneIsNewer(arrivals, n - 1);
    }
  }

  function TimesAccepted(arrivals: seq<Arrival>, n: nat): nat
    requires n <= |arrivals|
  {
    if n == 0 then 0 else TimesAccepted(arrivals, n - 1) + if Accepts(arrivals[n - 1]) then 1 else 0
  }

  predicate CanDeliver(arrival: Arrival) {
    arrival.canDeliver && (arrival.Flushes? || Accepts(arrival))
  }

  /** Over every run: the newest accepted link is the one that waits, or was the last handed on and
      nothing waits, which it was as soon as the window could take it; nothing is handed on twice; and a
      refused link changes nothing. */
  lemma {:induction false} NewestLinkIsKept(arrivals: seq<Arrival>, n: nat)
    requires n <= |arrivals|
    ensures var s, k := After(arrivals, n), Newest(arrivals, n);
            && |s.delivered| + (if s.pending.Some? then 1 else 0) <= TimesAccepted(arrivals, n)
            && (k.None? ==> s == Waiting(None, []))
            && (k.Some? ==>
                  Accepts(arrivals[k.value]) &&
                  var hash := Opens(arrivals[k.value].raw).value.1;
                  if exists j :: k.value <= j < n && CanDeliver(arrivals[j])
                  then s.pending.None? && s.delivered != [] && s.delivered[|s.delivered| - 1] == hash
                  else s.pending == Some(hash))
  {
    hide Opens;
    if n > 0 {
      NewestLinkIsKept(arrivals, n - 1);
    }
  }
}
