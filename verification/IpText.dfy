/**
 * Addresses as text (desktop/gatewayUrl.js, parseIPv4 and parseIPv6): the canonical dotted quad, and the
 * forms of section 2.2 of RFC 4291. Text is characters; a digit is one of 0 to 9.
 */
module IpText {
  import opened Options
  import opened Decimal
  import opened Texts

  // ── IPv4 ──

  /** 0, or up to three digits that do not start with 0. */
  predicate IsOctetText(part: string) {
    AllDigits(part) && 1 <= |part| <= 3 && (part[0] != '0' || |part| == 1)
  }

  predicate OctetPart(part: string) {
    IsOctetText(part) && Read(part) <= 255
  }

  predicate AllOctets(parts: seq<string>) {
    forall i | 0 <= i < |parts| :: OctetPart(parts[i])
  }

  function Octets(parts: seq<string>): (octets: seq<nat>)
    requires AllOctets(parts)
    ensures |octets| == |parts|
  {
    seq(|parts|, i requires 0 <= i < |parts| => Read(parts[i]))
  }

  function Quad(text: string): Option<seq<nat>> {
    var parts := Split(text, '.');
    if |parts| == 4 && AllOctets(parts) then Some(Octets(parts)) else None
  }

  method ParseIPv4(text: string) returns (quad: Option<seq<nat>>)
    ensures quad == Quad(text)
  {
    var parts := Split(text, '.');
    if |parts| != 4 {
      return None;
    }
    var out, i := [], 0;
    while i < |parts|
      invariant 0 <= i <= |parts|
      invariant AllOctets(parts[..i]) && out == Octets(parts[..i])
    {
      assert parts[..i + 1] == parts[..i] + [parts[i]];
      if !IsOctetText(parts[i]) {
        return None;
      }
      var n := Read(parts[i]);
      if n > 255 {
        return None;
      }
      assert OctetPart(parts[i]);
      out := out + [n];
      i := i + 1;
    }
    assert parts[..i] == parts;
    return Some(out);
  }

  function WrittenParts(quad: seq<nat>): seq<string>
    requires |quad| == 4
  {
    [Write(quad[0]), Write(quad[1]), Write(quad[2]), Write(quad[3])]
  }

  function QuadText(quad: seq<nat>): string
    requires |quad| == 4
  {
    Join(WrittenParts(quad), '.')
  }

  lemma DigitsAreFree(text: string, c: char)
    requires AllDigits(text) && !IsDigit(c)
    ensures Free(text, c)
  {
  }

  lemma QuadTextIsPlain(quad: seq<nat>)
    requires |quad| == 4
    ensures Free(QuadText(quad), ':') && Free(QuadText(quad), '%') && !Free(QuadText(quad), '.')
  {
    var parts := WrittenParts(quad);
    forall i | 0 <= i < |parts|
      ensures Free(parts[i], ':') && Free(parts[i], '%')
    {
      DigitsAreFree(parts[i], ':');
      DigitsAreFree(parts[i], '%');
    }
    JoinFree(parts, '.', ':');
    JoinFree(parts, '.', '%');
    hide Write;
    assert QuadText(quad)[|parts[0]|] == '.';
  }

  lemma WrittenOctet(n: nat)
    requires n <= 255
    ensures OctetPart(Write(n)) && Read(Write(n)) == n
  {
    ReadWrite(n);
    if 10 <= n < 100 {
      assert Write(n) == Write(n / 10) + [Digit(n % 10)];
    } else if n >= 100 {
      assert Write(n / 10) == Write(n / 100) + [Digit(n / 10 % 10)];
    }
  }

  lemma ReadDigit(digit: string)
    requires |digit| == 1 && AllDigits(digit)
    ensures Read(digit) == (digit[0] - '0') as nat && Write(Read(digit)) == digit
  {
    assert digit[..0] == [];
    assert Read(digit) == (digit[0] - '0') as nat;
  }

  /** One more digit after a text that is written as it is read. */
  lemma ReadOneMore(text: string, digit: char)
    requires AllDigits(text) && IsDigit(digit) && Read(text) > 0 && Write(Read(text)) == text
    ensures AllDigits(text + [digit]) && Read(text + [digit]) > 0 && Write(Read(text + [digit])) == text + [digit]
  {
    assert (text + [digit])[..|text|] == text;
    assert Read(text + [digit]) == 10 * Read(text) + (digit - '0') as nat;
  }

  lemma ReadOctet(part: string)
    requires IsOctetText(part)
    ensures Write(Read(part)) == part
  {
    ReadDigit(part[..1]);
    hide Read, Write;
    if |part| == 1 {
      assert part[..1] == part;
    } else {
      ReadOneMore(part[..1], part[1]);
      assert part[..1] + [part[1]] == part[..2];
      if |part| == 2 {
        assert part[..2] == part;
      } else {
        ReadOneMore(part[..2], part[2]);
        assert part[..2] + [part[2]] == part;
      }
    }
  }

  lemma QuadSplits(quad: seq<nat>)
    requires |quad| == 4
    ensures Split(QuadText(quad), '.') == WrittenParts(quad)
  {
    var parts := WrittenParts(quad);
    forall i | 0 <= i < |parts|
      ensures Free(parts[i], '.')
    {
      DigitsAreFree(parts[i], '.');
    }
    hide WrittenParts;
    SplitOfJoin(parts, '.');
  }

  predicate IsQuad(quad: seq<nat>) {
    |quad| == 4 && forall i | 0 <= i < 4 :: quad[i] <= 255
  }

  lemma CanonicalIsRead(quad: seq<nat>)
    requires IsQuad(quad)
    ensures Quad(QuadText(quad)) == Some(quad)
  {
    QuadSplits(quad);
    WrittenOctet(quad[0]);
    WrittenOctet(quad[1]);
    WrittenOctet(quad[2]);
    WrittenOctet(quad[3]);
    hide Split, QuadText, OctetPart, Write, Read;
    assert Octets(WrittenParts(quad)) == quad;
  }

  lemma ReadIsCanonical(text: string)
    requires Quad(text).Some?
    ensures IsQuad(Quad(text).value) && text == QuadText(Quad(text).value)
  {
    var parts, quad := Split(text, '.'), Quad(text).value;
    assert AllOctets(parts) && quad == Octets(parts);
    ReadOctet(parts[0]);
    ReadOctet(parts[1]);
    ReadOctet(parts[2]);
    ReadOctet(parts[3]);
    JoinOfSplit(text, '.');
    hide Split, Join, IsOctetText, Write, Read;
    assert parts == WrittenParts(quad);
  }

  /** A text is read as an address exactly when it is that address's one canonical form. */
  lemma QuadExactlyWhen(text: string, quad: seq<nat>)
    ensures Quad(text) == Some(quad) <==> IsQuad(quad) && text == QuadText(quad)
  {
    hide Quad, QuadText;
    if IsQuad(quad) {
      CanonicalIsRead(quad);
    }
    if Quad(text).Some? {
      ReadIsCanonical(text);
    }
  }

  // ── IPv6 ──

  predicate IsHexDigit(c: char) {
    '0' <= c <= '9' || 'a' <= c <= 'f' || 'A' <= c <= 'F'
  }

  function HexDigit(c: char): nat
    requires IsHexDigit(c)
  {
    if c <= '9' then (c - '0') as nat else if c <= 'F' then (c - 'A') as nat + 10 else (c - 'a') as nat + 10
  }

  predicate IsHextet(group: string) {
    1 <= |group| <= 4 && forall i | 0 <= i < |group| :: IsHexDigit(group[i])
  }

  function HexValue(group: string): nat
    requires forall i | 0 <= i < |group| :: IsHexDigit(group[i])
  {
    if group == "" then 0 else 16 * HexValue(group[..|group| - 1]) + HexDigit(group[|group| - 1])
  }

  predicate AllHextets(groups: seq<string>) {
    forall i | 0 <= i < |groups| :: IsHextet(groups[i])
  }

  function Values(groups: seq<string>): (values: seq<nat>)
    requires AllHextets(groups)
    ensures |values| == |groups|
  {
    seq(|groups|, i requires 0 <= i < |groups| => HexValue(groups[i]))
  }

  function GroupsOf(chunk: string): seq<string> {
    if chunk == "" then [] else Split(chunk, ':')
  }

  function Hextets(chunk: string): Option<seq<nat>> {
    if AllHextets(GroupsOf(chunk)) then Some(Values(GroupsOf(chunk))) else None
  }

  /** Where the first pair of colons is, or the length of the text when there is none. */
  function GapAt(s: string): (at: nat)
    ensures at <= |s|
    ensures at < |s| ==> at + 1 < |s| && s[at] == ':' && s[at + 1] == ':'
    ensures forall i | 0 <= i < at && i + 1 < |s| :: !(s[i] == ':' && s[i + 1] == ':')
  {
    if |s| < 2 then |s| else if s[0] == ':' && s[1] == ':' then 0 else 1 + GapAt(s[1..])
  }

  function Zeros(n: nat): (zeros: seq<nat>)
    ensures |zeros| == n
  {
    seq(n, _ => 0)
  }

  /** The eight groups of a text with no dotted quad. */
  function Expand(body: string): (groups: Option<seq<nat>>)
    ensures groups.Some? ==> |groups.value| == 8
  {
    var at := GapAt(body);
    if at == |body| then
      var all := Hextets(body);
      if all.Some? && |all.value| == 8 then all else None
    else
      var rest := body[at + 2..];
      if GapAt(rest) < |rest| then None
      else
        var head, tail := Hextets(body[..at]), Hextets(rest);
        if head.None? || tail.None? || |head.value| + |tail.value| > 8 then None
        else Some(head.value + Zeros(8 - |head.value| - |tail.value|) + tail.value)
  }

  function LastIndexOf(s: string, c: char): (at: nat)
    requires !Free(s, c)
    ensures at < |s| && s[at] == c && forall i | at < i < |s| :: s[i] != c
  {
    if s[|s| - 1] == c then |s| - 1 else LastIndexOf(s[..|s| - 1], c)
  }

  function WithQuad(groups: seq<nat>, quad: seq<nat>): seq<nat>
    requires |groups| == 8 && |quad| == 4
  {
    groups[6 := 256 * quad[0] + quad[1]][7 := 256 * quad[2] + quad[3]]
  }

  function DropZone(text: string): string {
    text[..IndexOf(text, '%')]
  }

  function Address(text: string): Option<seq<nat>> {
    var body := DropZone(text);
    if Free(body, ':') then None
    else
      var at := LastIndexOf(body, ':');
      var tail := body[at + 1..];
      if Free(tail, '.') then Expand(body)
      else
        var quad := Quad(tail);
        if quad.None? then None
        else
          QuadExactlyWhen(tail, quad.value);
          var groups := Expand(body[..at + 1] + "0:0");
          if groups.None? then None else Some(WithQuad(groups.value, quad.value))
  }

  method ParseIPv6(text: string) returns (hextets: Option<seq<nat>>)
    ensures hextets == Address(text)
  {
    hide Expand, Quad, QuadText, DropZone;
    var body := DropZone(text);
    if Free(body, ':') {
      return None;
    }
    var tail4 := None;
    var lastColon := LastIndexOf(body, ':');
    var maybeQuad := body[lastColon + 1..];
    if !Free(maybeQuad, '.') {
      tail4 := ParseIPv4(maybeQuad);
      if tail4.None? {
        return None;
      }
      body := body[..lastColon + 1] + "0:0";
      QuadExactlyWhen(maybeQuad, tail4.value);
    }
    hextets := Expand(body);
    if hextets.None? {
      return;
    }
    if tail4.Some? {
      var quad := tail4.value;
      hextets := Some(hextets.value[6 := 256 * quad[0] + quad[1]]);
      hextets := Some(hextets.value[7 := 256 * quad[2] + quad[3]]);
    }
  }

  // ── The text forms ──

  /** A text form: groups of hex digits, all of them or those around a gap, the last two perhaps as a
      dotted quad. */
  datatype Form =
    | Full(groups: seq<string>, quad: Option<seq<nat>>)
    | Gap(head: seq<string>, groups: seq<string>, quad: Option<seq<nat>>)

  function Words(groups: seq<string>, quad: Option<seq<nat>>): seq<string>
    requires quad.Some? ==> IsQuad(quad.value)
  {
    groups + if quad.Some? then [QuadText(quad.value)] else []
  }

  function Count(groups: seq<string>, quad: Option<seq<nat>>): nat {
    |groups| + if quad.Some? then 2 else 0
  }

  predicate Good(form: Form) {
    && AllHextets(form.groups) && (form.quad.Some? ==> IsQuad(form.quad.value))
    && match form
       case Full(groups, quad) => Count(groups, quad) == 8
       case Gap(head, groups, quad) => AllHextets(head) && |head| + Count(groups, quad) <= 8
  }

  function Text(form: Form): string
    requires Good(form)
  {
    match form
    case Full(groups, quad) => Join(Words(groups, quad), ':')
    case Gap(head, groups, quad) => Join(head, ':') + "::" + Join(Words(groups, quad), ':')
  }

  function TailValues(groups: seq<string>, quad: Option<seq<nat>>): (values: seq<nat>)
    requires AllHextets(groups) && (quad.Some? ==> IsQuad(quad.value))
    ensures |values| == Count(groups, quad)
  {
    Values(groups) +
    if quad.Some? then [256 * quad.value[0] + quad.value[1], 256 * quad.value[2] + quad.value[3]] else []
  }

  /** The address a form writes: its groups, the gap standing for as many zeros as are missing. */
  function Meaning(form: Form): (address: seq<nat>)
    requires Good(form)
    ensures |address| == 8
  {
    match form
    case Full(groups, quad) => TailValues(groups, quad)
    case Gap(head, groups, quad) =>
      Values(head) + Zeros(8 - |head| - Count(groups, quad)) + TailValues(groups, quad)
  }

  // ── Reading a form back ──

  /** What holds of the groups written one after another: no colon at an end, no two together. */
  predicate NoEdge(s: string) {
    && (s != "" ==> s[0] != ':' && s[|s| - 1] != ':')
    && GapAt(s) == |s|
  }

  lemma NoGapAt(s: string)
    requires forall i | 0 <= i < |s| - 1 :: !(s[i] == ':' && s[i + 1] == ':')
    ensures GapAt(s) == |s|
  {
  }

  lemma HextetIsPlain(group: string)
    requires IsHextet(group)
    ensures Free(group, ':') && Free(group, '.') && Free(group, '%')
  {
  }

  lemma {:induction false} JoinedHasNoGap(groups: seq<string>)
    requires AllHextets(groups)
    ensures GapAt(Join(groups, ':')) == |Join(groups, ':')|
  {
    if groups == [] {
      NoGapAt("");
    } else if |groups| == 1 {
      HextetIsPlain(groups[0]);
      NoGapAt(groups[0]);
    } else {
      var rest := Join(groups[1..], ':');
      JoinedHasNoGap(groups[1..]);
      JoinEnds(groups[1..], ':');
      HextetIsPlain(groups[0]);
      HextetIsPlain(groups[1]);
      AfterGroup(groups[0], rest);
    }
  }

  lemma AfterGroup(group: string, rest: string)
    requires Free(group, ':') && rest != "" && rest[0] != ':' && GapAt(rest) == |rest|
    ensures GapAt(group + ":" + rest) == |group + ":" + rest|
  {
    var s := group + ":" + rest;
    forall i | 0 <= i < |s| - 1
      ensures !(s[i] == ':' && s[i + 1] == ':')
    {
      var k := i - |group| - 1;
      assert i < |group| ==> s[i] == group[i];
      assert k >= 0 ==> s[i] == rest[k] && s[i + 1] == rest[k + 1];
    }
    NoGapAt(s);
  }

  lemma JoinedIsPlain(groups: seq<string>)
    requires AllHextets(groups)
    ensures var s := Join(groups, ':');
            NoEdge(s) && Free(s, '.') && Free(s, '%') && (s == "" <==> groups == [])
  {
    JoinedHasNoGap(groups);
    forall i | 0 <= i < |groups|
      ensures Free(groups[i], ':') && Free(groups[i], '.') && Free(groups[i], '%')
    {
      HextetIsPlain(groups[i]);
    }
    JoinFree(groups, ':', '.');
    JoinFree(groups, ':', '%');
    if groups != [] {
      JoinEnds(groups, ':');
    }
  }

  lemma GroupsComeBack(groups: seq<string>)
    requires AllHextets(groups)
    ensures GroupsOf(Join(groups, ':')) == groups
    ensures Hextets(Join(groups, ':')) == Some(Values(groups))
  {
    JoinedIsPlain(groups);
    forall i | 0 <= i < |groups|
      ensures Free(groups[i], ':')
    {
      HextetIsPlain(groups[i]);
    }
    if groups != [] {
      SplitOfJoin(groups, ':');
    }
  }

  lemma GapBetween(head: string, rest: string)
    requires NoEdge(head)
    ensures GapAt(head + "::" + rest) == |head|
  {
    var s := head + "::" + rest;
    assert s[|head|] == ':' && s[|head| + 1] == ':';
    assert forall i | 0 <= i < |head| :: s[i] == head[i];
  }

  lemma ExpandGap(before: string, after: string)
    requires NoEdge(before) && NoEdge(after)
    requires Hextets(before).Some? && Hextets(after).Some? && |Hextets(before).value| + |Hextets(after).value| <= 8
    ensures var head, tail := Hextets(before).value, Hextets(after).value;
            Expand(before + "::" + after) == Some(head + Zeros(8 - |head| - |tail|) + tail)
  {
    var body := before + "::" + after;
    GapBetween(before, after);
    assert GapAt(after) == |after|;
    hide Hextets, NoEdge, GapAt;
    assert body[..|before|] == before;
    assert body[|before| + 2..] == after;
  }

  lemma ExpandFull(groups: seq<string>)
    requires AllHextets(groups) && |groups| == 8
    ensures Expand(Join(groups, ':')) == Some(Values(groups))
  {
    hide Hextets, Join, AllHextets;
    JoinedIsPlain(groups);
    GroupsComeBack(groups);
  }

  lemma ExpandParted(head: seq<string>, groups: seq<string>)
    requires AllHextets(head) && AllHextets(groups) && |head| + |groups| <= 8
    ensures Expand(Join(head, ':') + "::" + Join(groups, ':'))
            == Some(Values(head) + Zeros(8 - |head| - |groups|) + Values(groups))
  {
    hide Hextets, Join, AllHextets, NoEdge, Expand, Zeros;
    JoinedIsPlain(head);
    JoinedIsPlain(groups);
    GroupsComeBack(head);
    GroupsComeBack(groups);
    ExpandGap(Join(head, ':'), Join(groups, ':'));
  }

  /** A form with no quad is read as what it means. */
  lemma ExpandReads(form: Form)
    requires Good(form) && form.quad.None?
    ensures Expand(Text(form)) == Some(Meaning(form))
  {
    hide Expand, Join, Values, AllHextets, Zeros;
    assert Words(form.groups, None) == form.groups;
    assert TailValues(form.groups, None) == Values(form.groups);
    hide Words, TailValues;
    match form
    case Full(groups, _) => ExpandFull(groups);
    case Gap(head, groups, _) => ExpandParted(head, groups);
  }

  /** The form with its quad written as two groups of one zero. */
  function Plain(form: Form): Form {
    form.(groups := form.groups + ["0", "0"], quad := None)
  }

  /** What a form with a quad writes before it. */
  function BeforeQuad(form: Form): string {
    match form
    case Full(groups, _) => Join(groups, ':') + ":"
    case Gap(head, groups, _) => Join(head, ':') + "::" + if groups == [] then "" else Join(groups, ':') + ":"
  }

  lemma PlainIsGood(form: Form)
    requires form.quad.Some? && IsQuad(form.quad.value)
    ensures Good(form) <==> Good(Plain(form))
  {
    assert IsHextet("0");
    assert Plain(form).groups[..|form.groups|] == form.groups;
    assert AllHextets(form.groups) <==> AllHextets(Plain(form).groups) by {
      assert forall i | 0 <= i < |form.groups| :: Plain(form).groups[i] == form.groups[i];
    }
  }

  lemma GoodHasQuad(form: Form)
    requires Good(form) && form.quad.Some?
    ensures IsQuad(form.quad.value)
  {
  }

  lemma QuadEnds(groups: seq<string>, quad: seq<nat>)
    requires IsQuad(quad)
    ensures var before := if groups == [] then "" else Join(groups, ':') + ":";
            && Join(Words(groups, Some(quad)), ':') == before + QuadText(quad)
            && Join(Words(groups + ["0", "0"], None), ':') == before + "0:0"
  {
    hide QuadText;
    assert Words(groups + ["0", "0"], None) == groups + ["0"] + ["0"];
    JoinLast(groups + ["0"], "0", ':');
    if groups == [] {
      assert Words(groups, Some(quad)) == [QuadText(quad)];
      assert [] + ["0"] == ["0"];
    } else {
      JoinLast(groups, QuadText(quad), ':');
      JoinLast(groups, "0", ':');
    }
  }

  lemma TextEndsInQuad(form: Form)
    requires Good(form) && form.quad.Some? && Good(Plain(form))
    ensures Text(form) == BeforeQuad(form) + QuadText(form.quad.value)
    ensures Text(Plain(form)) == BeforeQuad(form) + "0:0"
  {
    QuadEnds(form.groups, form.quad.value);
    hide QuadText, Words, Join, IsQuad, AllHextets;
  }

  lemma ZeroValues(groups: seq<string>)
    requires AllHextets(groups)
    ensures AllHextets(groups + ["0", "0"])
    ensures TailValues(groups + ["0", "0"], None) == Values(groups) + [HexValue("0"), HexValue("0")]
  {
    hide HexValue;
  }

  lemma LastTwo(front: seq<nat>, x: nat, y: nat, quad: seq<nat>)
    requires |front| == 6 && |quad| == 4
    ensures WithQuad(front + [x, y], quad) == front + [256 * quad[0] + quad[1], 256 * quad[2] + quad[3]]
  {
  }

  lemma MeaningOfQuad(form: Form)
    requires Good(form) && form.quad.Some? && Good(Plain(form))
    ensures Meaning(form) == WithQuad(Meaning(Plain(form)), form.quad.value)
  {
    ZeroValues(form.groups);
    var q, zero := form.quad.value, HexValue("0");
    var values := Values(form.groups);
    assert TailValues(form.groups, form.quad) == values + [256 * q[0] + q[1], 256 * q[2] + q[3]];
    hide HexValue, Values, TailValues, AllHextets, IsQuad, WithQuad, Zeros;
    match form
    case Full(groups, _) =>
      LastTwo(values, zero, zero, q);
    case Gap(head, groups, _) =>
      var front := Values(head) + Zeros(8 - |head| - Count(groups, form.quad)) + values;
      assert Meaning(form) == front + [256 * q[0] + q[1], 256 * q[2] + q[3]];
      assert Meaning(Plain(form)) == front + [zero, zero];
      LastTwo(front, zero, zero, q);
  }

  lemma LastIndexIs(pre: string, word: string, c: char)
    requires pre != "" && pre[|pre| - 1] == c && Free(word, c)
    ensures !Free(pre + word, c) && LastIndexOf(pre + word, c) == |pre| - 1
  {
    var s := pre + word;
    assert s[|pre| - 1] == c;
    assert forall i | |pre| <= i < |s| :: s[i] == word[i - |pre|];
  }

  lemma JoinHas(groups: seq<string>)
    requires |groups| > 1
    ensures !Free(Join(groups, ':'), ':')
  {
    assert Join(groups, ':')[|groups[0]|] == ':';
  }

  lemma PlainTextIsPlain(form: Form)
    requires Good(form) && form.quad.None?
    ensures Free(Text(form), '%') && Free(Text(form), '.') && !Free(Text(form), ':')
  {
    assert Words(form.groups, None) == form.groups;
    JoinedIsPlain(form.groups);
    match form
    case Full(groups, _) =>
      JoinHas(groups);
    case Gap(head, groups, _) =>
      JoinedIsPlain(head);
      hide Join, AllHextets, NoEdge, Free;
      GapIsPlain(Join(head, ':'), Join(groups, ':'));
  }

  lemma GapIsPlain(before: string, after: string)
    requires Free(before, '%') && Free(before, '.') && Free(after, '%') && Free(after, '.')
    ensures var s := before + "::" + after; Free(s, '%') && Free(s, '.') && !Free(s, ':')
  {
    var s := before + "::" + after;
    assert s[|before|] == ':';
  }

  lemma TextIsPlain(form: Form)
    requires Good(form)
    ensures Free(Text(form), '%') && !Free(Text(form), ':')
    ensures form.quad.None? ==> Free(Text(form), '.')
  {
    if form.quad.None? {
      PlainTextIsPlain(form);
    } else {
      PlainIsGood(form);
      PlainTextIsPlain(Plain(form));
      TextEndsInQuad(form);
      QuadTextIsPlain(form.quad.value);
      var before := BeforeQuad(form);
      assert forall i | 0 <= i < |before| :: Text(form)[i] == before[i] && Text(Plain(form))[i] == before[i];
      assert before[|before| - 1] == ':';
      assert Text(form)[|before| - 1] == ':';
      hide Text, Good, QuadText, BeforeQuad;
    }
  }

  lemma NoZone(text: string)
    requires Free(text, '%')
    ensures DropZone(text) == text
  {
    assert IndexOf(text, '%') == |text|;
  }

  lemma AddressOfPlain(body: string)
    requires Free(body, '%') && Free(body, '.') && !Free(body, ':')
    ensures Address(body) == Expand(body)
  {
    NoZone(body);
    hide Expand;
  }

  lemma AddressOfQuad(before: string, quad: seq<nat>)
    requires before != "" && before[|before| - 1] == ':' && IsQuad(quad) && Free(before + QuadText(quad), '%')
    requires Expand(before + "0:0").Some?
    ensures Address(before + QuadText(quad)) == Some(WithQuad(Expand(before + "0:0").value, quad))
  {
    var text := before + QuadText(quad);
    NoZone(text);
    QuadTextIsPlain(quad);
    QuadExactlyWhen(QuadText(quad), quad);
    LastIndexIs(before, QuadText(quad), ':');
    assert text[..|before|] == before && text[|before|..] == QuadText(quad);
    hide Expand, QuadText, Quad;
  }

  /** Every text form is read as the address it writes. */
  lemma FormIsRead(form: Form)
    requires Good(form)
    ensures Address(Text(form)) == Some(Meaning(form))
  {
    hide Text, Good, Meaning, Expand, QuadText, Address;
    TextIsPlain(form);
    if form.quad.None? {
      ExpandReads(form);
      AddressOfPlain(Text(form));
    } else {
      assert IsQuad(form.quad.value) && BeforeQuad(form)[|BeforeQuad(form)| - 1] == ':' by {
        GoodHasQuad(form);
      }
      hide BeforeQuad;
      PlainIsGood(form);
      TextEndsInQuad(form);
      MeaningOfQuad(form);
      ExpandReads(Plain(form));
      AddressOfQuad(BeforeQuad(form), form.quad.value);
    }
  }

  // ── What is read is a form ──

  function PlainFormOf(body: string): Form {
    var at := GapAt(body);
    if at == |body| then Full(GroupsOf(body), None) else Gap(GroupsOf(body[..at]), GroupsOf(body[at + 2..]), None)
  }

  lemma GroupsJoin(chunk: string)
    ensures Join(GroupsOf(chunk), ':') == chunk
  {
    if chunk != "" {
      JoinOfSplit(chunk, ':');
    }
  }

  lemma ExpandedIsForm(body: string)
    requires Expand(body).Some?
    ensures var form := PlainFormOf(body);
            Good(form) && Text(form) == body && Meaning(form) == Expand(body).value
  {
    var at, form := GapAt(body), PlainFormOf(body);
    assert Words(form.groups, None) == form.groups;
    if at == |body| {
      GroupsJoin(body);
      assert TailValues(form.groups, None) == Values(form.groups);
    } else {
      GroupsJoin(body[..at]);
      GroupsJoin(body[at + 2..]);
      assert body == body[..at] + "::" + body[at + 2..];
      assert TailValues(form.groups, None) == Values(form.groups);
    }
  }

  lemma EndsInZeros(before: string)
    requires before == "" || before[|before| - 1] == ':'
    ensures var groups := GroupsOf(before + "0:0");
            |groups| >= 2 && groups == groups[..|groups| - 2] + ["0", "0"]
  {
    var more := before + "0:";
    assert Free("0", ':') && more[|more| - 1] == ':';
    assert more + "0" == before + "0:0" && more[..|more| - 1] == before + "0";
    SplitLast(before, "0", ':');
    SplitLast(more, "0", ':');
    assert Before(more, ':') == Split(before + "0", ':');
    hide Split, Before;
    var front := Before(before, ':');
    assert GroupsOf(before + "0:0") == front + ["0"] + ["0"];
    assert front + ["0"] + ["0"] == front + ["0", "0"];
    assert (front + ["0", "0"])[..|front|] == front;
  }

  /** A gap in a text that ends in two zeros is before them. */
  lemma GapBeforeZeros(before: string)
    requires before != "" && before[|before| - 1] == ':'
    ensures var body := before + "0:0";
            var at := GapAt(body);
            at < |body| ==> at + 2 <= |before| && body[at + 2..] == before[at + 2..] + "0:0"
  {
    var body := before + "0:0";
    var at := GapAt(body);
    if at < |body| {
      assert body[|before|] == '0' && body[|before| + 2] == '0';
      assert at + 2 <= |before|;
      assert body[at + 2..] == before[at + 2..] + "0:0";
    }
  }

  lemma PlainFormEndsInZeros(before: string)
    requires before != "" && before[|before| - 1] == ':'
    ensures var groups := PlainFormOf(before + "0:0").groups;
            |groups| >= 2 && groups == groups[..|groups| - 2] + ["0", "0"]
  {
    hide GapAt, GroupsOf;
    GapBeforeZeros(before);
    var at := GapAt(before + "0:0");
    if at == |before + "0:0"| {
      EndsInZeros(before);
    } else {
      EndsInZeros(before[at + 2..]);
    }
  }

  lemma SameBefore(a: string, b: string, end: string)
    requires a + end == b + end
    ensures a == b
  {
    assert |a| == |b|;
    assert (a + end)[..|a|] == (b + end)[..|b|];
  }

  /** The form with the quad back in place of the two zeros it was read with. */
  lemma QuadComesBack(before: string, quad: seq<nat>)
    requires before != "" && before[|before| - 1] == ':' && IsQuad(quad) && Expand(before + "0:0").Some?
    ensures exists form ::
              Good(form) && Text(form) == before + QuadText(quad) && Meaning(form) == WithQuad(Expand(before + "0:0").value, quad)
  {
    var plain := PlainFormOf(before + "0:0");
    ExpandedIsForm(before + "0:0");
    PlainFormEndsInZeros(before);
    assert plain.quad.None?;
    hide PlainFormOf, Expand, Good, Text, Meaning, QuadText, WithQuad, BeforeQuad;
    var form := plain.(groups := plain.groups[..|plain.groups| - 2], quad := Some(quad));
    assert Plain(form) == plain;
    PlainIsGood(form);
    TextEndsInQuad(form);
    MeaningOfQuad(form);
    SameBefore(BeforeQuad(form), before, "0:0");
  }

  lemma ReadIsForm(text: string)
    requires Address(text).Some?
    ensures exists form :: Good(form) && Text(form) == DropZone(text) && Meaning(form) == Address(text).value
  {
    hide Expand, Quad, QuadText, WithQuad, Good, Text, Meaning, PlainFormOf, DropZone;
    var body := DropZone(text);
    var at := LastIndexOf(body, ':');
    var before, tail := body[..at + 1], body[at + 1..];
    if Free(tail, '.') {
      ExpandedIsForm(body);
    } else {
      var quad := Quad(tail).value;
      QuadExactlyWhen(tail, quad);
      assert body == before + tail && before[|before| - 1] == ':';
      hide Free, Address;
      QuadComesBack(before, quad);
    }
  }

  lemma ZoneDropped(text: string)
    ensures Address(DropZone(text)) == Address(text)
  {
    NoZone(DropZone(text));
    hide DropZone, Expand, Quad;
  }

  /** A text is read as an address exactly when, its zone dropped, it is one of the forms that write that
      address. Beside the forms of section 2.2 of RFC 4291, a gap may stand for no group at all. */
  lemma AddressExactlyWhen(text: string, address: seq<nat>)
    ensures Address(text) == Some(address) <==>
            exists form :: Good(form) && Text(form) == DropZone(text) && Meaning(form) == address
  {
    hide Text, Good, Meaning, Address, DropZone;
    if Address(text) == Some(address) {
      ReadIsForm(text);
    }
    forall form | Good(form) && Text(form) == DropZone(text) && Meaning(form) == address
      ensures Address(text) == Some(address)
    {
      FormIsRead(form);
      TextIsPlain(form);
      NoZone(Text(form));
      ZoneDropped(text);
    }
  }

  /** As here: four groups on each side of a gap leave it nothing to stand for. */
  lemma GapForNoGroup()
    ensures Address("1:2:3:4::5:6:7:8") == Some([1, 2, 3, 4, 5, 6, 7, 8])
  {
    var head, groups := ["1", "2", "3", "4"], ["5", "6", "7", "8"];
    var form := Gap(head, groups, None);
    GapMeans(head, groups);
    hide Address, Text, Good, Meaning;
    GapText(head, groups);
    FormIsRead(form);
  }

  lemma GapMeans(head: seq<string>, groups: seq<string>)
    requires head == ["1", "2", "3", "4"] && groups == ["5", "6", "7", "8"]
    ensures Good(Gap(head, groups, None)) && Meaning(Gap(head, groups, None)) == [1, 2, 3, 4, 5, 6, 7, 8]
  {
    assert forall i | 0 <= i < 4 :: IsHextet(head[i]) && IsHextet(groups[i]);
    DigitGroups();
    hide HexValue, IsHextet;
    assert Values(head) == [1, 2, 3, 4];
    assert TailValues(groups, None) == [5, 6, 7, 8];
    assert Zeros(0) == [];
  }

  lemma DigitGroups()
    ensures HexValue("1") == 1 && HexValue("2") == 2 && HexValue("3") == 3 && HexValue("4") == 4
    ensures HexValue("5") == 5 && HexValue("6") == 6 && HexValue("7") == 7 && HexValue("8") == 8
  {
  }

  lemma FourJoined(a: char, b: char, c: char, d: char)
    ensures Join([[a], [b], [c], [d]], ':') == [a, ':', b, ':', c, ':', d]
  {
    var parts := [[a], [b], [c], [d]];
    assert parts[1..] == [[b], [c], [d]] && parts[1..][1..] == [[c], [d]] && parts[1..][1..][1..] == [[d]];
    assert Join([[d]], ':') == [d];
    assert Join([[c], [d]], ':') == [c, ':', d];
    assert Join([[b], [c], [d]], ':') == [b, ':', c, ':', d];
  }

  lemma GapText(head: seq<string>, groups: seq<string>)
    requires head == ["1", "2", "3", "4"] && groups == ["5", "6", "7", "8"] && Good(Gap(head, groups, None))
    ensures Text(Gap(head, groups, None)) == "1:2:3:4::5:6:7:8"
  {
    FourJoined('1', '2', '3', '4');
    FourJoined('5', '6', '7', '8');
    assert Words(groups, None) == groups;
    hide Join;
  }
}
