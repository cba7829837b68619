/**
 * A `personalclaw://` link the shell accepts whose hash is no link (desktop/deepLinks.js): a file and a
 * prompt of wide characters, each of which the hash writes as nine.
 */
module LongLinks {
  import opened Options
  import opened Texts
  import opened PercentText
  import opened DeepLinks

  const WIDE: char := '\U{2026}'

  function Wide(n: nat): string {
    if n == 0 then "" else [WIDE] + Wide(n - 1)
  }

  lemma {:induction false} WideIs(n: nat)
    ensures |Wide(n)| == n == Units(Wide(n)) && All(Wide(n), c => c == WIDE)
    ensures DecodeForm(Wide(n)) == Some(Wide(n)) && |FormEncode(Wide(n))| == 9 * n
  {
    if n > 0 {
      WideIs(n - 1);
      assert Wide(n)[1..] == Wide(n - 1);
      WideIsNineChars();
      PlusParts([WIDE], Wide(n - 1));
      NoPlus([WIDE]);
      DecodePlain(WIDE, PlusToSpace(Wide(n - 1)));
      hide Decode, FormChar, PlusToSpace;
    } else {
      assert PlusToSpace("") == "";
    }
  }

  lemma WideIsNineChars()
    ensures |FormChar(WIDE)| == 9
  {
    BytesComeBack(Utf8(WIDE), "");
    hide Percent;
  }

  lemma WideIsAValue(n: nat)
    requires 0 < n <= 1024
    ensures ValueOk("file", Wide(n)) && ParameterGood("chat", ["new"], "file", Wide(n))
  {
    WideIs(n);
    assert Free(Wide(n), '/') && Free(Wide(n), '\\');
    assert Split(Wide(n), '/') == [Wide(n)];
    hide Units, DecodeForm, FormEncode;
    assert Wide(n)[0] == WIDE;
    assert "file" == PARAMETERS[3];
  }

  lemma WideIsAPrompt(n: nat)
    requires 0 < n <= 4000
    ensures ParameterGood("chat", ["new"], "prompt", Wide(n))
  {
    WideIs(n);
    hide Units, DecodeForm, FormEncode;
    assert Wide(n)[0] == WIDE;
    assert "prompt" == PARAMETERS[7];
  }

  function WidePair(key: string, n: nat): string {
    key + "=" + Wide(n)
  }

  const LONG_PAIRS: seq<string> := [WidePair("file", 1024), WidePair("prompt", 4000)]

  const LONG_GIVEN := map["file" := Wide(1024), "prompt" := Wide(4000)]

  lemma WidePairIs(key: string, n: nat)
    requires key == "file" || key == "prompt"
    ensures Free(WidePair(key, n), '&') && Free(WidePair(key, n), '#')
    ensures |WidePair(key, n)| == Units(WidePair(key, n)) == |key| + 1 + n
  {
    WideIs(n);
    PlainKey(key);
    hide Wide, Units, DecodeForm, FormEncode;
    UnitsPlus(key + "=", Wide(n));
    AsciiUnits(key + "=");
  }

  lemma WidePairIsRead(key: string, n: nat, before: map<string, string>)
    requires key == "file" || key == "prompt"
    requires ParameterGood("chat", ["new"], key, Wide(n)) && key !in before
    ensures WithPair("chat", ["new"], before, WidePair(key, n)) == Taken(before[key := Wide(n)])
  {
    hide Wide, ParameterGood, WithPair, DecodeForm;
    PlainKey(key);
    WideIs(n);
    WithGoodPair("chat", ["new"], before, key, Wide(n), key, Wide(n));
  }

  lemma TwoPairs(route: string, segments: seq<string>, a: string, b: string, one: map<string, string>, both: map<string, string>)
    requires WithPair(route, segments, map[], a) == Taken(one) && WithPair(route, segments, one, b) == Taken(both)
    ensures GivenOf(route, segments, [a, b]) == Taken(both)
  {
    hide WithPair;
    assert [a, b][..1] == [a] && [a][..0] == [];
    assert GivenOf(route, segments, [a]) == Taken(one);
  }

  lemma LongQueryIsRead()
    ensures GivenOf("chat", ["new"], PairsOf(Join(LONG_PAIRS, '&'))) == Taken(LONG_GIVEN)
  {
    hide Wide, WidePair, ParameterGood, WithPair, Split, Units, All, Free, GivenOf, Join;
    var one := map["file" := Wide(1024)];
    WidePairIs("file", 1024);
    WidePairIs("prompt", 4000);
    SplitOfJoin(LONG_PAIRS, '&');
    JoinEnds(LONG_PAIRS, '&');
    WideIsAValue(1024);
    WideIsAPrompt(4000);
    WidePairIsRead("file", 1024, map[]);
    assert map[]["file" := Wide(1024)] == one;
    WidePairIsRead("prompt", 4000, one);
    assert one["prompt" := Wide(4000)] == LONG_GIVEN;
    TwoPairs("chat", ["new"], WidePair("file", 1024), WidePair("prompt", 4000), one, LONG_GIVEN);
  }

  lemma LongQueryUnits()
    ensures var query := Join(LONG_PAIRS, '&'); Free(query, '#') && |query| == Units(query) == 5037
  {
    var first, second := LONG_PAIRS[0], LONG_PAIRS[1];
    WidePairIs("file", 1024);
    WidePairIs("prompt", 4000);
    hide WidePair, Wide, Units;
    JoinFree(LONG_PAIRS, '&', '#');
    assert LONG_PAIRS[1..] == [second];
    assert Join(LONG_PAIRS, '&') == first + ['&'] + second;
    AsciiUnits(['&']);
    UnitsPlus(first, ['&']);
    UnitsPlus(first + ['&'], second);
  }

  const LONG_LINK := Link("chat", ["new"], LONG_GIVEN)

  lemma NewIsASegment()
    ensures SegmentsOf(["new"]) == Taken(["new"])
  {
    PlainDecodes("new");
    AsciiUnits("new");
    assert SegmentOf("new") == Taken("new");
    hide SegmentOf;
    assert ["new"][..0] == [] && [] + ["new"] == ["new"];
  }

  lemma ChatNewIsAPath()
    ensures var parts := ["chat", "new"];
            Free("chat/new", '?') && Free("chat/new", '#') && Split("chat/new", '/') == parts && PiecesOf(parts) == ["new"]
    ensures IsRoute("chat") && RouteOf("chat") == "chat"
  {
    var parts := ["chat", "new"];
    hide Split;
    assert parts[1..] == ["new"];
    assert Join(parts, '/') == "chat/new";
    SplitOfJoin(parts, '/');
  }

  lemma LongRestIsRead()
    ensures ParseRest("chat/new" + ("?" + Join(LONG_PAIRS, '&'))) == Taken(LONG_LINK)
  {
    hide GivenOf, Units, SegmentsOf, Split, Join, IsRoute, RouteOf, PairsOf, PiecesOf, ParseRest, Free;
    LongQueryIsRead();
    LongQueryUnits();
    ChatNewIsAPath();
    NewIsASegment();
    assert Centres(LONG_GIVEN) == 1;
    assert Join(LONG_PAIRS, '&') != "";
    ParsedRest("chat/new", Join(LONG_PAIRS, '&'), ["chat", "new"], ["new"], LONG_GIVEN);
  }

  function LongRest(): string {
    "chat/new" + ("?" + Join(LONG_PAIRS, '&'))
  }

  lemma AsciiBefore(a: string, s: string)
    requires All(a, Ascii)
    ensures Units(a + s) == |a| + Units(s)
  {
    AsciiUnits(a);
    UnitsPlus(a, s);
  }

  lemma LongRestUnits(query: string)
    ensures Units(PREFIX + ("chat/new" + ("?" + query))) == 24 + Units(query)
    ensures Free(query, '#') ==> Free("chat/new" + ("?" + query), '#')
  {
    assert All(PREFIX, Ascii) && All("chat/new", Ascii) && All("?", Ascii);
    hide All, Units;
    AsciiBefore("?", query);
    AsciiBefore("chat/new", "?" + query);
    AsciiBefore(PREFIX, "chat/new" + ("?" + query));
  }

  lemma LongLinkIsAccepted()
    ensures Parse(PREFIX + LongRest()) == Taken(LONG_LINK)
  {
    hide Units, ParseRest, Parse, Join, Free;
    LongRestIsRead();
    LongQueryUnits();
    LongRestUnits(Join(LONG_PAIRS, '&'));
    hide PREFIX;
    ParsedLink(LongRest());
  }

  /** How long the values of the first *n* parameters are as a hash writes them. */
  function Weight(given: map<string, string>, n: nat): nat
    requires n <= |PARAMETERS|
  {
    if n == 0 then 0
    else Weight(given, n - 1) + if PARAMETERS[n - 1] in given then |FormEncode(given[PARAMETERS[n - 1]])| else 0
  }

  lemma {:induction false} QueryWeighs(given: map<string, string>, n: nat)
    requires n <= |PARAMETERS|
    ensures |Join(GivenPairs(given, n), '&')| >= Weight(given, n)
  {
    hide FormEncode, PARAMETERS;
    if n > 0 {
      QueryWeighs(given, n - 1);
      var key, before := PARAMETERS[n - 1], GivenPairs(given, n - 1);
      if key in given {
        var pair := PairText(key, given[key]);
        if before == [] {
          assert before + [pair] == [pair];
        } else {
          JoinLast(before, pair, '&');
        }
      }
    }
  }

  lemma LongHas(i: nat)
    requires i < |PARAMETERS|
    ensures PARAMETERS[i] in LONG_GIVEN <==> i == 3 || i == 7
  {
    hide Wide;
  }

  lemma LongWeight()
    ensures Weight(LONG_GIVEN, |PARAMETERS|) == 9 * 1024 + 9 * 4000
  {
    forall i | 0 <= i < |PARAMETERS|
      ensures PARAMETERS[i] in LONG_GIVEN <==> i == 3 || i == 7
    {
      LongHas(i);
    }
    WideIs(1024);
    WideIs(4000);
    assert |PARAMETERS| == 8 && PARAMETERS[3] == "file" && PARAMETERS[7] == "prompt";
    hide PARAMETERS, LONG_GIVEN, Wide, FormEncode, Units, DecodeForm, All;
    assert Weight(LONG_GIVEN, 3) == 0;
    assert Weight(LONG_GIVEN, 7) == 9 * 1024;
  }

  /** The limit matters: this accepted link's own hash is no link, for its wide characters are each
      written as nine. */
  lemma EncodingOutgrowsTheLimit()
    ensures var raw := PREFIX + LongRest();
            Opens(raw).Taken? && Opens(LinkOf(Opens(raw).value.1)) == Refused("the link is too long")
  {
    hide LongRest, GivenPairs, LinkOf, Parse, Join, Weight;
    LongLinkIsAccepted();
    LongWeight();
    QueryWeighs(LONG_GIVEN, |PARAMETERS|);
    HashIsCanonicalExactlyWhen(PREFIX + LongRest());
    LinkIsLonger(LONG_LINK);
  }

  lemma LinkIsLonger(link: Link)
    ensures |LinkOf(HashOf(link))| >= |QueryOf(link)|
  {
    hide QueryOf, PathOf;
  }

  lemma PlainKey(key: string)
    requires key == "file" || key == "prompt"
    ensures DecodeForm(key) == Some(key) && Free(key, '=') && Free(key, '&') && Free(key, '#') && All(key + "=", Ascii)
  {
    NoPlus(key);
    PlainDecodes(key);
  }

  lemma {:induction false} PlainDecodes(s: string)
    requires Free(s, '%')
    ensures Decode(s) == Some(s)
  {
    if s != "" {
      PlainDecodes(s[1..]);
      assert [s[0]] + s[1..] == s;
    }
  }

  lemma {:induction false} UnitsPlus(a: string, b: string)
    ensures Units(a + b) == Units(a) + Units(b)
  {
    if a == "" {
      assert a + b == b;
    } else {
      UnitsPlus(a[1..], b);
      assert (a + b)[1..] == a[1..] + b;
    }
  }
}
