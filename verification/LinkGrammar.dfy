/**
 * Which texts are accepted as a `personalclaw://` link, exactly, and what is in one that is.
 */
module LinkGrammar {
  import opened Options
  import opened Texts
  import opened PercentText
  import opened DeepLinks

  // ── What spells a link ──

  /** Each piece writes a segment. */
  predicate SpellsSegments(pieces: seq<string>, segments: seq<string>) {
    |pieces| == |segments| && forall i | 0 <= i < |pieces| :: Writes(pieces[i], segments[i])
  }

  /** *pair* writes *key*, the first `=` sign, and *value*, a plus for each space perhaps. */
  predicate SpellsPair(pair: string, key: string, value: string) {
    var eq := IndexOf(pair, '=');
    0 < eq < |pair| && Writes(PlusToSpace(pair[..eq]), key) && Writes(PlusToSpace(pair[eq + 1..]), value)
  }

  /** The pairs give the parameters *given*, each once. */
  predicate SpellsGiven(pairs: seq<string>, given: map<string, string>) {
    if pairs == [] then given == map[]
    else
      exists key :: key in given && SpellsPair(pairs[|pairs| - 1], key, given[key])
                    && SpellsGiven(pairs[..|pairs| - 1], given - {key})
  }

  /** A route's name or its alias, the segments after it, and the parameters after a question mark; one
      trailing slash after the name alone is let be. */
  predicate SpellsLink(rest: string, link: Link) {
    var q := IndexOf(rest, '?');
    var parts := Split(rest[..q], '/');
    var query := if q < |rest| then rest[q + 1..] else "";
    && (link.route == parts[0] || (parts[0] == "threads" && link.route == "chat"))
    && SpellsSegments(if parts[1..] == [""] then [] else parts[1..], link.segments)
    && SpellsGiven(if query == "" then [] else Split(query, '&'), link.given)
  }

  // ── Accepted exactly when spelled ──

  lemma SegmentTaken(piece: string, seg: string)
    ensures SegmentOf(piece) == Taken(seg) <==> Writes(piece, seg) && SegmentGood(seg)
  {
    DecodesExactlyWhen(piece, seg);
    hide Decode, Writes, Units, All;
  }

  lemma {:induction false} SegmentsTaken(pieces: seq<string>, segments: seq<string>)
    ensures SegmentsOf(pieces) == Taken(segments) <==> SpellsSegments(pieces, segments) && AllGood(segments)
  {
    hide SegmentOf, SegmentGood, Writes;
    if pieces != [] && segments != [] {
      var front, last := segments[..|segments| - 1], segments[|segments| - 1];
      SegmentsTaken(pieces[..|pieces| - 1], front);
      SegmentTaken(pieces[|pieces| - 1], last);
      assert segments == front + [last];
      assert AllGood(segments) <==> AllGood(front) && SegmentGood(last);
      assert |pieces| == |segments| ==>
          (SpellsSegments(pieces, segments) <==> SpellsSegments(pieces[..|pieces| - 1], front) && Writes(pieces[|pieces| - 1], last));
      SegmentsTakenNext(pieces, segments);
    } else if pieces != [] {
      SegmentsTakenNext(pieces, segments);
    }
  }

  lemma SegmentsTakenNext(pieces: seq<string>, segments: seq<string>)
    requires pieces != []
    ensures SegmentsOf(pieces) == Taken(segments) <==>
              && segments != []
              && SegmentsOf(pieces[..|pieces| - 1]) == Taken(segments[..|segments| - 1])
              && SegmentOf(pieces[|pieces| - 1]) == Taken(segments[|segments| - 1])
  {
    hide SegmentOf;
    if segments != [] {
      assert segments == segments[..|segments| - 1] + [segments[|segments| - 1]];
    }
  }

  lemma PairRead(pair: string, key: string, value: string)
    ensures var eq := IndexOf(pair, '=');
            SpellsPair(pair, key, value) <==>
              0 < eq < |pair| && DecodeForm(pair[..eq]) == Some(key) && DecodeForm(pair[eq + 1..]) == Some(value)
  {
    var eq := IndexOf(pair, '=');
    if eq < |pair| {
      DecodesExactlyWhen(PlusToSpace(pair[..eq]), key);
      DecodesExactlyWhen(PlusToSpace(pair[eq + 1..]), value);
    }
    hide Decode, Writes, PlusToSpace;
  }

  lemma PairTakenOnly(route: string, segments: seq<string>, before: map<string, string>, pair: string, given: map<string, string>)
      returns (key: string)
    requires WithPair(route, segments, before, pair) == Taken(given)
    ensures key in given && key !in before && given == before[key := given[key]]
    ensures SpellsPair(pair, key, given[key]) && ParameterGood(route, segments, key, given[key])
  {
    hide DecodeForm, SpellsPair, ValueOk, CockpitOnly, CockpitFits, PromptFits, PARAMETERS;
    var eq := IndexOf(pair, '=');
    key := DecodeForm(pair[..eq]).value;
    PairRead(pair, key, DecodeForm(pair[eq + 1..]).value);
  }

  lemma PairIsTaken(route: string, segments: seq<string>, before: map<string, string>, pair: string, key: string, value: string)
    requires key !in before && SpellsPair(pair, key, value) && ParameterGood(route, segments, key, value)
    ensures WithPair(route, segments, before, pair) == Taken(before[key := value])
  {
    hide DecodeForm, SpellsPair, ValueOk, CockpitOnly, CockpitFits, PromptFits, PARAMETERS;
    PairRead(pair, key, value);
  }

  lemma {:induction false} GivenTaken(route: string, segments: seq<string>, pairs: seq<string>, given: map<string, string>)
    ensures GivenOf(route, segments, pairs) == Taken(given) <==> SpellsGiven(pairs, given) && GivenGood(route, segments, given)
  {
    hide WithPair, ParameterGood, SpellsPair;
    if pairs != [] {
      var front, last := pairs[..|pairs| - 1], pairs[|pairs| - 1];
      if GivenOf(route, segments, pairs) == Taken(given) {
        var before := GivenOf(route, segments, front).value;
        var key := PairTakenOnly(route, segments, before, last, given);
        GivenTaken(route, segments, front, before);
        assert given - {key} == before;
      }
      if SpellsGiven(pairs, given) && GivenGood(route, segments, given) {
        var key :| key in given && SpellsPair(last, key, given[key]) && SpellsGiven(front, given - {key});
        var before := given - {key};
        assert given == before[key := given[key]];
        GivenTaken(route, segments, front, before);
        PairIsTaken(route, segments, before, last, key, given[key]);
      }
    }
  }

  lemma ParsedParts(rest: string, link: Link)
    ensures var q := IndexOf(rest, '?');
            var parts := Split(rest[..q], '/');
            var pairs := PairsOf(if q < |rest| then rest[q + 1..] else "");
            ParseRest(rest) == Taken(link) <==>
              && link.route == RouteOf(parts[0]) && IsRoute(link.route)
              && |PiecesOf(parts)| <= SEGMENTS_LIMIT && SegmentsOf(PiecesOf(parts)) == Taken(link.segments)
              && GivenOf(link.route, link.segments, pairs) == Taken(link.given) && Centres(link.given) <= 1
  {
    hide Split, IsRoute, RouteOf, SegmentsOf, GivenOf, Centres, PiecesOf, PairsOf;
  }

  lemma SpelledParts(rest: string, link: Link)
    ensures var q := IndexOf(rest, '?');
            var parts := Split(rest[..q], '/');
            var pairs := PairsOf(if q < |rest| then rest[q + 1..] else "");
            SpellsLink(rest, link) <==>
              && (link.route == parts[0] || (parts[0] == "threads" && link.route == "chat"))
              && SpellsSegments(PiecesOf(parts), link.segments) && SpellsGiven(pairs, link.given)
  {
    hide Split, SpellsSegments, SpellsGiven;
  }

  /** What an allowed link is made of: a route, at most four segments, the parameters its route takes, and one of
      a file, a diff and a commit at most. */
  lemma AllowedParts(link: Link)
    ensures Allowed(link) <==>
              && IsRoute(link.route) && |link.segments| <= 4 && AllGood(link.segments)
              && GivenGood(link.route, link.segments, link.given) && Centres(link.given) <= 1
    ensures Centres(link.given) <= 1 <==>
              forall a, b | a in link.given && b in link.given && IsCentre(a) && IsCentre(b) :: a == b
  {
    hide IsRoute, AllGood, GivenGood;
    assert "file" != "diff" && "diff" != "commit" && "file" != "commit" by { CentresDiffer(); }
  }

  predicate IsCentre(key: string) {
    key == "file" || key == "diff" || key == "commit"
  }

  lemma CentresDiffer()
    ensures "file" != "diff" && "diff" != "commit" && "file" != "commit"
  {
    assert "file"[0] == 'f' && "diff"[0] == 'd' && "commit"[0] == 'c';
  }

  lemma RestTaken(rest: string, link: Link)
    ensures ParseRest(rest) == Taken(link) <==> SpellsLink(rest, link) && Allowed(link)
  {
    hide Split, IsRoute, RouteOf, SegmentsOf, GivenOf, SpellsGiven, AllGood, GivenGood, Centres, ParseRest, SpellsLink, Allowed, PiecesOf, PairsOf;
    var q := IndexOf(rest, '?');
    var parts := Split(rest[..q], '/');
    var pieces, pairs := PiecesOf(parts), PairsOf(if q < |rest| then rest[q + 1..] else "");
    ParsedParts(rest, link);
    SpelledParts(rest, link);
    AllowedParts(link);
    RouteIs(parts[0], link.route);
    SegmentsTaken(pieces, link.segments);
    GivenTaken(link.route, link.segments, pairs, link.given);
    assert SpellsSegments(pieces, link.segments) ==> |pieces| == |link.segments|;
    hide SpellsSegments;
  }

  lemma RouteIs(name: string, route: string)
    ensures route == RouteOf(name) && IsRoute(route) <==>
              (route == name || (name == "threads" && route == "chat")) && IsRoute(route)
  {
    ThreadsIsNoRoute();
    hide IsRoute;
  }

  lemma ThreadsIsNoRoute()
    ensures !IsRoute("threads") && RouteOf("threads") == "chat"
  {
  }

  /** A text is accepted as a link exactly when it is within the limit, is `personalclaw://` in any case, has no
      fragment, and spells an allowed link after that: then it is that link. */
  lemma AcceptedExactlyWhen(raw: string, link: Link)
    ensures Parse(raw) == Taken(link) <==>
              && 0 < Units(raw) <= 40000 && |raw| >= 15 && Lower(raw[..15]) == "personalclaw://" && Free(raw, '#')
              && SpellsLink(raw[15..], link) && Allowed(link)
  {
    if |raw| >= 15 {
      RestTaken(raw[15..], link);
    }
    hide ParseRest, SpellsLink, Allowed, Lower, Free, Units;
  }

  // ── What a link may carry ──

  /** A character no file's path may hold: a control, or one that turns the direction of text. */
  predicate Turns(c: char) {
    var n := c as int;
    n <= 31 || 127 <= n <= 159 || 0x202A <= n <= 0x202E || 0x2066 <= n <= 0x2069
  }

  predicate Letter(c: char) {
    'a' <= c <= 'z' || 'A' <= c <= 'Z'
  }

  predicate Digit(c: char) {
    '0' <= c <= '9'
  }

  /** A path inside the thread's folder: relative, `/`-separated, with no `..` part, home, drive or backslash. */
  predicate StaysInside(v: string) {
    && v != "" && v[0] != '/' && v[0] != '~' && !(|v| >= 2 && Letter(v[0]) && v[1] == ':')
    && (forall i | 0 <= i < |v| :: v[i] != '\\' && !Turns(v[i]))
    && ".." !in Split(v, '/')
  }

  predicate AnId(v: string) {
    v != "" && Units(v) <= 128 && forall i | 0 <= i < |v| :: Letter(v[i]) || Digit(v[i]) || v[i] in "._:-"
  }

  predicate AWord(v: string) {
    v != "" && Units(v) <= 32 && 'a' <= v[0] <= 'z' && forall i | 0 <= i < |v| :: 'a' <= v[i] <= 'z' || Digit(v[i]) || v[i] == '-'
  }

  predicate APath(v: string) {
    Units(v) <= 1024 && StaysInside(v)
  }

  predicate ACommit(v: string) {
    7 <= |v| <= 40 && forall i | 0 <= i < |v| :: Digit(v[i]) || 'a' <= v[i] <= 'f'
  }

  predicate APrompt(v: string) {
    v != "" && Units(v) <= 4000 && forall i | 0 <= i < |v| :: !Turns(v[i]) || v[i] == '\t' || v[i] == '\n' || v[i] == '\r'
  }

  lemma IdIs(v: string)
    ensures IsId(v) <==> AnId(v)
  {
    hide Units;
  }

  lemma WordIs(v: string)
    ensures IsWord(v) <==> AWord(v)
  {
    hide Units;
  }

  lemma CommitIs(v: string)
    ensures ValueOk("commit", v) <==> ACommit(v)
  {
  }

  lemma PromptIs(v: string)
    ensures v != "" && ValueOk("prompt", v) <==> APrompt(v)
  {
    hide Units;
  }

  /** What each parameter may be, and on which route: an id, a word, a path that stays inside the thread's folder,
      a commit's hash, or a prompt; a prompt only for a new thread, a diff, a commit or a task only in a code
      cockpit. */
  lemma ParametersAre(route: string, segments: seq<string>, key: string, v: string)
    ensures ParameterGood(route, segments, key, v) <==>
              || (key == "project" && AnId(v))
              || (key == "task" && InCockpit(route, segments) && AnId(v))
              || ((key == "mode" || key == "pane") && AWord(v))
              || (key == "file" && APath(v))
              || (key == "diff" && InCockpit(route, segments) && APath(v))
              || (key == "commit" && InCockpit(route, segments) && ACommit(v))
              || (key == "prompt" && route == "chat" && segments == ["new"] && APrompt(v))
  {
    IdIs(v);
    WordIs(v);
    PathIs(v);
    CommitIs(v);
    PromptIs(v);
    assert AnId(v) ==> v != "";
    hide AnId, AWord, APath, ACommit, APrompt, IsId, IsWord, IsPath, All;
  }

  predicate InCockpit(route: string, segments: seq<string>) {
    route == "code" && |segments| == 1 && segments[0] != "history"
  }

  lemma PathIs(v: string)
    ensures v != "" && IsPath(v) <==> APath(v)
  {
    hide Split, Units;
  }

  /** And a segment: not empty, no dot or two dots alone, at most 128 of letters, digits and `._:@~-`. */
  lemma SegmentsAre(seg: string)
    ensures SegmentGood(seg) <==>
              && seg != "" && seg != "." && seg != ".." && Units(seg) <= 128
              && forall i | 0 <= i < |seg| :: Letter(seg[i]) || Digit(seg[i]) || seg[i] in "._:@~-"
  {
    hide Units;
  }

}
