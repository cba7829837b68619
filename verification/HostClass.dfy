/**
 * The trust a host is given from its text alone (desktop/gatewayUrl.js, classifyHost). Letters are folded
 * as ASCII.
 */
module HostClass {
  import opened Options
  import opened Decimal
  import opened Texts
  import opened IpText

  datatype Trust = Loopback | Private | Public | Refused

  datatype Verdict = Verdict(trust: Trust, reason: string)

  function DropLast(s: string, c: char): string {
    if s != "" && s[|s| - 1] == c then s[..|s| - 1] else s
  }

  function DropFirst(s: string, c: char): string {
    if s != "" && s[0] == c then s[1..] else s
  }

  /** The host as it is judged: trimmed, its brackets and one root dot dropped, in lower case. */
  function Host(raw: string): string {
    Lower(DropLast(DropLast(DropFirst(Trim(raw), '['), ']'), '.'))
  }

  predicate AllHex(s: string) {
    forall i | 0 <= i < |s| :: IsHexDigit(s[i])
  }

  predicate IsHexLiteral(s: string) {
    |s| > 2 && s[0] == '0' && (s[1] == 'x' || s[1] == 'X') && AllHex(s[2..])
  }

  predicate IsNumeral(s: string) {
    s != "" && AllDigits(s)
  }

  /** Shaped like an address without being a canonical one: a number, or two to four of them dotted. */
  predicate NonCanonicalIpShape(host: string) {
    || IsNumeral(host) || IsHexLiteral(host)
    || (var parts := Split(host, '.');
        2 <= |parts| <= 4 && forall i | 0 <= i < |parts| :: IsHexLiteral(parts[i]) || IsNumeral(parts[i]))
  }

  function V6Verdict(v6: seq<nat>): Verdict
    requires |v6| == 8
  {
    if forall i | 0 <= i < 8 :: v6[i] == 0 then Verdict(Refused, "unspecified_address")
    else if (forall i | 0 <= i < 7 :: v6[i] == 0) && v6[7] == 1 then Verdict(Loopback, "ipv6_loopback")
    else if (forall i | 0 <= i < 5 :: v6[i] == 0) && (v6[5] == 0xffff || v6[5] == 0) then Verdict(Refused, "mapped_ipv4")
    else if v6[0] / 0x40 == 0xfe80 / 0x40 then Verdict(Refused, "ipv6_link_local")
    else if v6[0] / 0x200 == 0xfc00 / 0x200 then Verdict(Private, "ipv6_unique_local")
    else Verdict(Public, "ipv6_global")
  }

  function V4Verdict(v4: seq<nat>): Verdict
    requires |v4| == 4
  {
    var a, b := v4[0], v4[1];
    if a == 127 then Verdict(Loopback, "ipv4_loopback")
    else if a == 0 then Verdict(Refused, "this_network")
    else if a == 169 && b == 254 then Verdict(Refused, "ipv4_link_local")
    else if a == 10 then Verdict(Private, "rfc1918_10")
    else if a == 172 && 16 <= b <= 31 then Verdict(Private, "rfc1918_172")
    else if a == 192 && b == 168 then Verdict(Private, "rfc1918_192")
    else if a == 100 && 64 <= b <= 127 then Verdict(Private, "cgnat_tailscale")
    else if a >= 224 then Verdict(Refused, "multicast_or_reserved")
    else Verdict(Public, "ipv4_global")
  }

  predicate IsNameChar(c: char) {
    'a' <= c <= 'z' || '0' <= c <= '9'
  }

  predicate IsLabel(s: string) {
    s != "" && IsNameChar(s[0]) && IsNameChar(s[|s| - 1]) && forall i | 0 <= i < |s| :: IsNameChar(s[i]) || s[i] == '-'
  }

  predicate IsHostname(host: string) {
    var parts := Split(DropLast(host, '.'), '.');
    forall i | 0 <= i < |parts| :: IsLabel(parts[i])
  }

  predicate EndsWith(s: string, end: string) {
    |end| <= |s| && s[|s| - |end|..] == end
  }

  function NameVerdict(host: string): Verdict {
    if host == "localhost" then Verdict(Loopback, "localhost")
    else if host == "localhost.localdomain" || host == "ip6-localhost" || host == "ip6-loopback" then
      Verdict(Refused, "alternate_loopback_name")
    else if !IsHostname(host) then Verdict(Refused, "malformed_hostname")
    else
      var bare := DropLast(host, '.');
      if bare == "local" || EndsWith(bare, ".local") then Verdict(Private, "mdns_local")
      else if EndsWith(bare, ".ts.net") then Verdict(Private, "tailscale_magicdns")
      else Verdict(Public, "name_unresolved")
  }

  function Judge(host: string): Verdict {
    if host == "" then Verdict(Refused, "empty_host")
    else if !Free(host, ':') then
      var v6 := Address(host);
      if v6.None? then Verdict(Refused, "malformed_ipv6") else (ReadIsForm(host); V6Verdict(v6.value))
    else if Quad(host).Some? then
      V4Verdict(Quad(host).value)
    else if NonCanonicalIpShape(host) then Verdict(Refused, "non_canonical_ip")
    else NameVerdict(host)
  }

  function ClassifyHost(raw: string): Verdict {
    Judge(Host(raw))
  }

  // ── One answer for every spelling ──

  function LowerForm(form: Form): Form {
    match form
    case Full(groups, quad) => Full(LowerAll(groups), quad)
    case Gap(head, groups, quad) => Gap(LowerAll(head), LowerAll(groups), quad)
  }

  function LowerAll(groups: seq<string>): (lower: seq<string>)
    ensures |lower| == |groups|
  {
    seq(|groups|, i requires 0 <= i < |groups| => Lower(groups[i]))
  }

  lemma LowerPlus(a: string, b: string)
    ensures Lower(a + b) == Lower(a) + Lower(b)
  {
  }

  lemma {:induction false} LowerValue(group: string)
    requires AllHex(group)
    ensures AllHex(Lower(group)) && HexValue(Lower(group)) == HexValue(group)
  {
    if group != "" {
      LowerValue(group[..|group| - 1]);
      assert Lower(group)[..|group| - 1] == Lower(group[..|group| - 1]);
    }
  }

  lemma LowerGroups(groups: seq<string>)
    requires AllHextets(groups)
    ensures AllHextets(LowerAll(groups)) && Values(LowerAll(groups)) == Values(groups)
  {
    forall i | 0 <= i < |groups|
      ensures IsHextet(Lower(groups[i])) && HexValue(Lower(groups[i])) == HexValue(groups[i])
    {
      LowerValue(groups[i]);
    }
  }

  lemma {:induction false} LowerJoin(parts: seq<string>, c: char)
    requires LowerChar(c) == c
    ensures Lower(Join(parts, c)) == Join(LowerAll(parts), c)
  {
    if |parts| > 1 {
      LowerJoin(parts[1..], c);
      assert LowerAll(parts)[1..] == LowerAll(parts[1..]);
      LowerPlus(parts[0] + [c], Join(parts[1..], c));
      LowerPlus(parts[0], [c]);
      assert Lower([c]) == [c];
    }
  }

  lemma LowerDigits(digits: string)
    requires AllDigits(digits)
    ensures Lower(digits) == digits
  {
  }

  lemma LowerOfQuad(quad: seq<nat>)
    requires |quad| == 4
    ensures Lower(QuadText(quad)) == QuadText(quad)
  {
    LowerJoin(WrittenParts(quad), '.');
    LowerDigits(Write(quad[0]));
    LowerDigits(Write(quad[1]));
    LowerDigits(Write(quad[2]));
    LowerDigits(Write(quad[3]));
    hide Lower, Write, AllDigits;
    assert LowerAll(WrittenParts(quad)) == WrittenParts(quad);
  }

  lemma LowerWords(groups: seq<string>, quad: Option<seq<nat>>)
    requires quad.Some? ==> IsQuad(quad.value)
    ensures Lower(Join(Words(groups, quad), ':')) == Join(Words(LowerAll(groups), quad), ':')
  {
    LowerJoin(Words(groups, quad), ':');
    if quad.Some? {
      LowerOfQuad(quad.value);
    }
    hide Lower, QuadText;
    assert LowerAll(Words(groups, quad)) == Words(LowerAll(groups), quad);
  }

  lemma LowerIsTheSame(form: Form)
    requires Good(form)
    ensures Good(LowerForm(form)) && Meaning(LowerForm(form)) == Meaning(form)
    ensures Text(LowerForm(form)) == Lower(Text(form))
  {
    LowerGroups(form.groups);
    LowerWords(form.groups, form.quad);
    match form
    case Full(groups, quad) =>
    case Gap(head, groups, quad) =>
      LowerGroups(head);
      LowerJoin(head, ':');
      hide Join, Lower, LowerAll, Words, Values, AllHextets, IsQuad;
      LowerPlus(Join(head, ':') + "::", Join(Words(groups, quad), ':'));
      LowerPlus(Join(head, ':'), "::");
      assert Lower("::") == "::" by { LowerColons(); }
  }

  lemma LowerColons()
    ensures Lower("::") == "::"
  {
  }

  /** Every form of an address, in any case, gets the verdict of the address it writes. */
  lemma JudgedByMeaning(form: Form, host: string)
    requires Good(form) && host == Lower(Text(form))
    ensures Judge(host) == V6Verdict(Meaning(form))
  {
    LowerIsTheSame(form);
    FormIsRead(LowerForm(form));
    TextIsPlain(LowerForm(form));
    hide Text, Good, Meaning, Address, V6Verdict, Lower, LowerForm;
  }

  predicate Unpadded(s: string) {
    s != "" && !IsSpace(s[0]) && !IsSpace(s[|s| - 1])
  }

  lemma HostOfBare(text: string)
    requires Unpadded(text) && text[0] != '[' && text[|text| - 1] != ']' && text[|text| - 1] != '.'
    ensures Host(text) == Lower(text)
    ensures Host("[" + text + "]") == Lower(text)
    ensures Host(text + ".") == Lower(text)
  {
    var bracketed, dotted := "[" + text + "]", text + ".";
    assert bracketed[1..] == text + "]" && (text + "]")[..|text|] == text && dotted[..|text|] == text;
  }

  lemma TextEdges(form: Form)
    requires Good(form)
    ensures var s := Text(form);
            s != "" && (IsHexDigit(s[0]) || s[0] == ':') && (IsHexDigit(s[|s| - 1]) || s[|s| - 1] == ':')
  {
    TextIsPlain(form);
    WordsEdges(form.groups, form.quad);
    if form.Gap? {
      WordsEdges(form.head, None);
      assert Words(form.head, None) == form.head;
    }
    hide Words, Join;
  }

  lemma QuadEdges(quad: seq<nat>)
    requires IsQuad(quad)
    ensures var s := QuadText(quad); s != "" && IsHexDigit(s[0]) && IsHexDigit(s[|s| - 1])
  {
    var parts := WrittenParts(quad);
    JoinEnds(parts, '.');
    assert AllDigits(parts[0]) && AllDigits(parts[3]);
    hide Write;
  }

  lemma WordsEdges(groups: seq<string>, quad: Option<seq<nat>>)
    requires AllHextets(groups) && (quad.Some? ==> IsQuad(quad.value))
    ensures var s := Join(Words(groups, quad), ':'); s != "" ==> IsHexDigit(s[0]) && IsHexDigit(s[|s| - 1])
  {
    if quad.Some? {
      QuadEdges(quad.value);
    }
    hide QuadText;
    var words := Words(groups, quad);
    forall i | 0 <= i < |words|
      ensures words[i] != "" && IsHexDigit(words[i][0]) && IsHexDigit(words[i][|words[i]| - 1])
    {
    }
    if words != [] {
      JoinEnds(words, ':');
    }
  }

  /** One answer for all spellings of one address: bare, in brackets, with a root dot, in any case. */
  lemma OneAnswerForAllSpellings(form: Form, other: Form)
    requires Good(form) && Good(other) && Meaning(form) == Meaning(other)
    ensures ClassifyHost(Text(form)) == V6Verdict(Meaning(form)) == ClassifyHost(Text(other))
    ensures ClassifyHost("[" + Text(form) + "]") == ClassifyHost(Text(form) + ".") == ClassifyHost(Text(other))
  {
    hide Text, Good, Meaning, Judge, V6Verdict, Host;
    TextEdges(form);
    TextEdges(other);
    HostOfBare(Text(form));
    HostOfBare(Text(other));
    hide IsHexDigit;
    JudgedByMeaning(form, Lower(Text(form)));
    JudgedByMeaning(other, Lower(Text(other)));
  }

  /** Loopback privilege is a literal's: the host is `localhost`, a canonical quad of 127/8, or a form of
      ::1, and nothing else. */
  lemma LoopbackExactlyWhen(raw: string)
    ensures ClassifyHost(raw).trust == Loopback <==>
              var host := Host(raw);
              || host == "localhost"
              || (exists quad :: IsQuad(quad) && quad[0] == 127 && host == QuadText(quad))
              || (exists form :: Good(form) && Text(form) == DropZone(host) && Meaning(form) == Zeros(7) + [1])
  {
    var host := Host(raw);
    assert Free("localhost", ':');
    hide Host, Judge, Text, Good, Meaning, QuadText, Address, DropZone, Free, IsQuad;
    if !Free(host, ':') {
      ColonIsNoQuad(host);
      AddressExactlyWhen(host, Zeros(7) + [1]);
      V6LoopbackIsOne(host);
    } else {
      NoColonIsNoForm(host);
      QuadOrName(host);
    }
  }

  lemma OnlyOneIsLoopback(v6: seq<nat>)
    requires |v6| == 8
    ensures V6Verdict(v6).trust == Loopback <==> v6 == Zeros(7) + [1]
  {
    if (forall i | 0 <= i < 7 :: v6[i] == 0) && v6[7] == 1 {
      assert v6 == Zeros(7) + [1];
    }
  }

  lemma V6LoopbackIsOne(host: string)
    requires !Free(host, ':')
    ensures Judge(host).trust == Loopback <==> Address(host) == Some(Zeros(7) + [1])
  {
    hide Address, V6Verdict;
    if Address(host).Some? {
      ReadIsForm(host);
      OnlyOneIsLoopback(Address(host).value);
    }
  }

  lemma ColonIsNoQuad(host: string)
    requires !Free(host, ':')
    ensures forall quad :: IsQuad(quad) ==> host != QuadText(quad)
  {
    forall quad | IsQuad(quad)
      ensures host != QuadText(quad)
    {
      QuadTextIsPlain(quad);
    }
  }

  lemma NoColonIsNoForm(host: string)
    requires Free(host, ':')
    ensures forall form :: Good(form) ==> Text(form) != DropZone(host)
  {
    forall form | Good(form)
      ensures Text(form) != DropZone(host)
    {
      TextIsPlain(form);
    }
  }

  lemma QuadOrName(host: string)
    requires Free(host, ':')
    ensures Judge(host).trust == Loopback <==>
              host == "localhost" || exists quad :: IsQuad(quad) && quad[0] == 127 && host == QuadText(quad)
  {
    hide QuadText, NonCanonicalIpShape, Quad, NameVerdict;
    LocalhostIsAName();
    NamesAreNotLoopback(host);
    if Quad(host).Some? {
      QuadExactlyWhen(host, Quad(host).value);
    }
    forall quad | IsQuad(quad) && host == QuadText(quad)
      ensures Quad(host) == Some(quad) && host != ""
    {
      QuadExactlyWhen(host, quad);
      QuadTextIsPlain(quad);
    }
  }

  lemma NamesAreNotLoopback(host: string)
    ensures NameVerdict(host).trust == Loopback <==> host == "localhost"
  {
  }

  lemma LocalhostIsAName()
    ensures Quad("localhost").None? && !NonCanonicalIpShape("localhost")
  {
    var host := "localhost";
    assert host[0] == 'l' && Free(host, '.');
    assert Split(host, '.') == [host];
  }

  // ── IPv4 by its blocks ──

  /** An address as one number. */
  function Number(quad: seq<nat>): nat
    requires |quad| == 4
  {
    ((quad[0] * 256 + quad[1]) * 256 + quad[2]) * 256 + quad[3]
  }

  /** The block of *size* addresses that *base* begins (section 3.1 of RFC 4632). */
  predicate InBlock(quad: seq<nat>, base: seq<nat>, size: nat)
    requires |quad| == 4 && |base| == 4 && size > 0
  {
    Number(quad) / size == Number(base) / size
  }

  lemma BlockParts(quad: seq<nat>)
    requires IsQuad(quad)
    ensures Number(quad) / 0x100_0000 == quad[0]
    ensures Number(quad) / 0x40_0000 == quad[0] * 4 + quad[1] / 64
    ensures Number(quad) / 0x10_0000 == quad[0] * 16 + quad[1] / 16
    ensures Number(quad) / 0x1_0000 == quad[0] * 256 + quad[1]
  {
  }

  lemma BlocksAre(quad: seq<nat>, base: seq<nat>)
    requires IsQuad(quad) && IsQuad(base)
    ensures InBlock(quad, base, 0x100_0000) <==> quad[0] == base[0]
    ensures InBlock(quad, base, 0x40_0000) <==> quad[0] == base[0] && quad[1] / 64 == base[1] / 64
    ensures InBlock(quad, base, 0x10_0000) <==> quad[0] == base[0] && quad[1] / 16 == base[1] / 16
    ensures InBlock(quad, base, 0x1_0000) <==> quad[0] == base[0] && quad[1] == base[1]
    ensures base[1] == base[2] == base[3] == 0 ==> (Number(quad) >= Number(base) <==> quad[0] >= base[0])
  {
    BlockParts(quad);
    BlockParts(base);
  }

  /** Which IPv4 addresses are trusted as what: loopback is 127.0.0.0/8; private are the three blocks of
      RFC 1918 and 100.64.0.0/10; refused are 0.0.0.0/8, 169.254.0.0/16 and all from 224.0.0.0 on; the
      rest are public. */
  lemma V4ByBlocks(quad: seq<nat>)
    requires IsQuad(quad)
    ensures var trust := ClassifyHost(QuadText(quad)).trust;
            && (trust == Loopback <==> InBlock(quad, [127, 0, 0, 0], 0x100_0000))
            && (trust == Private <==>
                  || InBlock(quad, [10, 0, 0, 0], 0x100_0000) || InBlock(quad, [172, 16, 0, 0], 0x10_0000)
                  || InBlock(quad, [192, 168, 0, 0], 0x1_0000) || InBlock(quad, [100, 64, 0, 0], 0x40_0000))
            && (trust == Refused <==>
                  || InBlock(quad, [0, 0, 0, 0], 0x100_0000) || InBlock(quad, [169, 254, 0, 0], 0x1_0000)
                  || Number(quad) >= Number([224, 0, 0, 0]))
  {
    hide ClassifyHost, QuadText, InBlock, Number;
    QuadIsJudged(quad);
    BlocksAre(quad, [127, 0, 0, 0]);
    BlocksAre(quad, [10, 0, 0, 0]);
    BlocksAre(quad, [172, 16, 0, 0]);
    BlocksAre(quad, [192, 168, 0, 0]);
    BlocksAre(quad, [100, 64, 0, 0]);
    BlocksAre(quad, [0, 0, 0, 0]);
    BlocksAre(quad, [169, 254, 0, 0]);
    BlocksAre(quad, [224, 0, 0, 0]);
  }

  lemma QuadIsJudged(quad: seq<nat>)
    requires IsQuad(quad)
    ensures ClassifyHost(QuadText(quad)) == V4Verdict(quad)
  {
    var text := QuadText(quad);
    QuadEdges(quad);
    QuadTextIsPlain(quad);
    LowerOfQuad(quad);
    QuadExactlyWhen(text, quad);
    hide QuadText, Quad, V4Verdict, Lower, Free;
    HostOfBare(text);
    QuadIsNotEmpty(text);
  }

  lemma QuadIsNotEmpty(text: string)
    requires !Free(text, '.')
    ensures text != ""
  {
  }

  /** White space around a host does not matter. */
  lemma PaddingIsDropped(pad: char, raw: string)
    requires IsSpace(pad)
    ensures ClassifyHost([pad] + raw) == ClassifyHost(raw) == ClassifyHost(raw + [pad])
  {
    assert ([pad] + raw)[1..] == raw;
    TrimPadded(raw, pad);
    hide Judge;
  }

  lemma {:induction false} TrimLeftPadded(s: string, pad: char)
    requires IsSpace(pad)
    ensures TrimLeft(s + [pad]) == if TrimLeft(s) == "" then "" else TrimLeft(s) + [pad]
  {
    if s == "" {
      assert (s + [pad])[1..] == "";
    } else if IsSpace(s[0]) {
      assert (s + [pad])[1..] == s[1..] + [pad];
      TrimLeftPadded(s[1..], pad);
    }
  }

  lemma TrimPadded(s: string, pad: char)
    requires IsSpace(pad)
    ensures Trim(s + [pad]) == Trim(s)
  {
    TrimLeftPadded(s, pad);
    var left := TrimLeft(s);
    if left != "" {
      assert (left + [pad])[..|left|] == left;
    }
  }

  // ── IPv6 by its prefixes ──

  /** Which IPv6 addresses are trusted as what, in every form that writes them: loopback is ::1 alone; private
      is fc00::/7; refused are fe80::/10 and, but for ::1, all of ::/96 and ::ffff:0:0/96, where an IPv4 address
      or none at all is written; the rest are public. */
  lemma V6ByPrefix(form: Form)
    requires Good(form)
    ensures var v6, trust := Meaning(form), ClassifyHost(Text(form)).trust;
            var wearsV4 := v6[..5] == Zeros(5) && (v6[5] == 0 || v6[5] == 0xffff);
            && (trust == Loopback <==> v6 == Zeros(7) + [1])
            && (trust == Private <==> 0xfc00 <= v6[0] <= 0xfdff)
            && (trust == Refused <==> (wearsV4 && v6 != Zeros(7) + [1]) || 0xfe80 <= v6[0] <= 0xfebf)
  {
    OneAnswerForAllSpellings(form, form);
    hide ClassifyHost, Text, Meaning, Good, V6Verdict, Zeros;
    V6ByGroups(Meaning(form));
  }

  lemma V6ByGroups(v6: seq<nat>)
    requires |v6| == 8
    ensures var trust := V6Verdict(v6).trust;
            var wearsV4 := v6[..5] == Zeros(5) && (v6[5] == 0 || v6[5] == 0xffff);
            && (trust == Loopback <==> v6 == Zeros(7) + [1])
            && (trust == Private <==> 0xfc00 <= v6[0] <= 0xfdff)
            && (trust == Refused <==> (wearsV4 && v6 != Zeros(7) + [1]) || 0xfe80 <= v6[0] <= 0xfebf)
  {
    OnlyOneIsLoopback(v6);
    FirstZeros(v6);
    hide Zeros;
  }

  lemma FirstZeros(v6: seq<nat>)
    requires |v6| == 8
    ensures v6[..5] == Zeros(5) <==> forall i | 0 <= i < 5 :: v6[i] == 0
    ensures v6 == Zeros(7) + [1] ==> v6[0] == 0 && v6[5] == 0
  {
    assert v6[..5] == Zeros(5) ==> forall i | 0 <= i < 5 :: v6[i] == v6[..5][i];
  }

  // ── Names by their labels ──

  /** Whether a name's last label is `local`, and whether its last two are `ts` and `net` after another. */
  lemma SuffixIsLabels(bare: string)
    ensures var labels := Split(bare, '.');
            && (bare == "local" || EndsWith(bare, ".local") <==> labels[|labels| - 1] == "local")
            && (EndsWith(bare, ".ts.net") <==>
                  |labels| >= 3 && labels[|labels| - 2] == "ts" && labels[|labels| - 1] == "net")
  {
    var labels := Split(bare, '.');
    hide Split, Join, Before, Free;
    if bare == "local" || EndsWith(bare, ".local") {
      LocalEndsIn(bare);
    }
    if EndsWith(bare, ".ts.net") {
      TailnetEndsIn(bare);
    }
    JoinOfSplit(bare, '.');
    if labels[|labels| - 1] == "local" {
      LocalLabelEnds(labels);
    }
    if |labels| >= 3 && labels[|labels| - 2] == "ts" && labels[|labels| - 1] == "net" {
      TailnetLabelsEnd(labels);
    }
    hide EndsWith;
  }

  lemma LocalEndsIn(bare: string)
    requires bare == "local" || EndsWith(bare, ".local")
    ensures var labels := Split(bare, '.'); labels[|labels| - 1] == "local"
  {
    var front := bare[..|bare| - 5];
    assert bare == front + "local";
    SplitLast(front, "local", '.');
  }

  lemma TailnetEndsIn(bare: string)
    requires EndsWith(bare, ".ts.net")
    ensures var labels := Split(bare, '.'); |labels| >= 3 && labels[|labels| - 2] == "ts" && labels[|labels| - 1] == "net"
  {
    var outer := bare[..|bare| - 6];
    TailnetParts(bare);
    hide Split, EndsWith, Before, Free;
    assert Free("net", '.') && Free("ts", '.') by { TailnetLabels(); }
    SplitLast(outer + "ts.", "net", '.');
    SplitLast(outer, "ts", '.');
    BeforeDot(outer + "ts");
    BeforeDot(outer[..|outer| - 1]);
  }

  lemma TailnetLabels()
    ensures Free("net", '.') && Free("ts", '.')
  {
  }

  lemma TailnetParts(bare: string)
    requires EndsWith(bare, ".ts.net")
    ensures var outer := bare[..|bare| - 6];
            && outer != "" && outer[|outer| - 1] == '.' && bare == outer + "ts." + "net" && outer == outer[..|outer| - 1] + "."
            && (outer + "ts.")[|outer + "ts."| - 1] == '.' && outer + "ts." == outer + "ts" + "."
  {
    var end := bare[|bare| - 7..];
    assert end == ".ts.net";
    assert bare[|bare| - 7] == end[0] && bare[|bare| - 6..] == end[1..];
  }

  lemma BeforeDot(s: string)
    ensures Before(s + ".", '.') == Split(s, '.')
  {
    assert (s + ".")[..|s|] == s;
  }

  lemma LocalLabelEnds(labels: seq<string>)
    requires labels != [] && labels[|labels| - 1] == "local"
    ensures Join(labels, '.') == "local" || EndsWith(Join(labels, '.'), ".local")
  {
    var front := labels[..|labels| - 1];
    assert labels == front + ["local"];
    if front != [] {
      hide EndsWith, Join;
      JoinLast(front, "local", '.');
      LocalJoined(Join(front, '.'));
    }
    hide EndsWith;
  }

  lemma LocalJoined(front: string)
    ensures EndsWith(front + ['.'] + "local", ".local")
  {
    EndIs(front, ".local");
    assert front + ['.'] + "local" == front + ".local";
    hide EndsWith;
  }

  lemma TailnetLabelsEnd(labels: seq<string>)
    requires |labels| >= 3 && labels[|labels| - 2] == "ts" && labels[|labels| - 1] == "net"
    ensures EndsWith(Join(labels, '.'), ".ts.net")
  {
    var front, outer := labels[..|labels| - 1], labels[..|labels| - 2];
    assert labels == front + ["net"] && front == outer + ["ts"];
    hide EndsWith, Join;
    JoinLast(front, "net", '.');
    JoinLast(outer, "ts", '.');
    TailnetJoined(Join(outer, '.'));
  }

  lemma TailnetJoined(outer: string)
    ensures EndsWith(outer + ['.'] + "ts" + ['.'] + "net", ".ts.net")
  {
    EndIs(outer, ".ts.net");
    assert outer + ['.'] + "ts" + ['.'] + "net" == outer + ".ts.net";
    hide EndsWith;
  }

  lemma EndIs(front: string, end: string)
    ensures EndsWith(front + end, end)
  {
  }

  /** A label: lower-case letters, digits and hyphens, no hyphen at either end. */
  lemma LabelIs(s: string)
    ensures IsLabel(s) <==>
              && s != "" && s[0] != '-' && s[|s| - 1] != '-'
              && forall i | 0 <= i < |s| :: 'a' <= s[i] <= 'z' || '0' <= s[i] <= '9' || s[i] == '-'
  {
  }

  /** Which names are trusted as what, from their labels: loopback is `localhost` alone; refused are the other
      names of the loopback address and whatever is no hostname; private are the names under `local` and, one
      label at least, under `ts.net`; the rest are public. */
  lemma NamesByLabels(raw: string)
    requires var host := Host(raw); host != "" && Free(host, ':') && Quad(host).None? && !NonCanonicalIpShape(host)
    ensures var host, trust := Host(raw), ClassifyHost(raw).trust;
            var labels := Split(DropLast(host, '.'), '.');
            var named := forall i | 0 <= i < |labels| :: IsLabel(labels[i]);
            var alternate := host in {"localhost.localdomain", "ip6-localhost", "ip6-loopback"};
            var last := labels[|labels| - 1];
            && (trust == Loopback <==> host == "localhost")
            && (trust == Refused <==> alternate || !named)
            && (trust == Private <==>
                  named && !alternate && host != "localhost"
                  && (last == "local" || (|labels| >= 3 && labels[|labels| - 2] == "ts" && last == "net")))
  {
    var host := Host(raw);
    SuffixIsLabels(DropLast(host, '.'));
    LocalhostIsNamed();
    hide Host, Split, EndsWith, IsLabel, NonCanonicalIpShape, Quad, Free, DropLast;
    assert ClassifyHost(raw) == NameVerdict(host);
    assert IsHostname(host) <==> forall i | 0 <= i < |Split(DropLast(host, '.'), '.')| :: IsLabel(Split(DropLast(host, '.'), '.')[i]);
  }

  lemma LocalhostIsNamed()
    ensures var labels := Split(DropLast("localhost", '.'), '.'); forall i | 0 <= i < |labels| :: IsLabel(labels[i])
  {
    var host := "localhost";
    assert host[8] == 't' && DropLast(host, '.') == host;
    assert Free(host, '.') && IndexOf(host, '.') == |host|;
    assert IsLabel(host);
  }

  /** An address written any other way than canonically is refused: a number, or two to four of them dotted,
      in decimal or in hexadecimal, that is not the text of an address. */
  lemma OtherNumbersAreRefused(raw: string, parts: seq<string>)
    requires 1 <= |parts| <= 4 && Host(raw) == Join(parts, '.')
    requires forall i | 0 <= i < |parts| :: Free(parts[i], '.') && (IsNumeral(parts[i]) || IsHexLiteral(parts[i]))
    requires forall quad | IsQuad(quad) :: Host(raw) != QuadText(quad)
    ensures ClassifyHost(raw).trust == Refused
  {
    var host := Host(raw);
    SplitOfJoin(parts, '.');
    if Quad(host).Some? {
      QuadExactlyWhen(host, Quad(host).value);
    }
    if Free(host, ':') && host != "" {
      IsShape(host, parts);
    } else if !Free(host, ':') {
      NumbersHaveNoColon(parts);
    }
    hide Host, Address, Quad, QuadText, V6Verdict, NameVerdict, NonCanonicalIpShape, Free, IsNumeral, IsHexLiteral, Join, Split;
  }

  lemma IsShape(host: string, parts: seq<string>)
    requires 1 <= |parts| <= 4 && host == Join(parts, '.') && Split(host, '.') == parts
    requires forall i | 0 <= i < |parts| :: IsNumeral(parts[i]) || IsHexLiteral(parts[i])
    ensures NonCanonicalIpShape(host)
  {
    hide IsNumeral, IsHexLiteral, Split;
  }

  lemma NumbersHaveNoColon(parts: seq<string>)
    requires forall i | 0 <= i < |parts| :: IsNumeral(parts[i]) || IsHexLiteral(parts[i])
    ensures Free(Join(parts, '.'), ':')
  {
    forall i | 0 <= i < |parts| ensures Free(parts[i], ':') {
      NumberHasNoColon(parts[i]);
    }
    hide IsNumeral, IsHexLiteral, Free;
    JoinFree(parts, '.', ':');
  }

  lemma NumberHasNoColon(s: string)
    requires IsNumeral(s) || IsHexLiteral(s)
    ensures Free(s, ':')
  {
    if IsHexLiteral(s) {
      assert forall i | 2 <= i < |s| :: s[i] == s[2..][i - 2];
    }
  }

  /** What has a colon and is no form of an address is refused, and so is nothing at all. */
  lemma NoFormIsRefused(raw: string)
    requires Host(raw) == "" || (!Free(Host(raw), ':') && forall form | Good(form) :: Text(form) != DropZone(Host(raw)))
    ensures ClassifyHost(raw).trust == Refused
  {
    var host := Host(raw);
    if Address(host).Some? && !Free(host, ':') {
      ReadIsForm(host);
    }
    hide Host, Address, Text, Good, Meaning, DropZone, V6Verdict, Quad, NameVerdict;
  }
}
