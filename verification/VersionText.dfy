/**
 * A version's text (desktop/appUpdate.js, parseVersion): the release forms the app ships, in any of the
 * spellings its pattern takes, and the version each names.
 */
module VersionText {
  import opened Options
  import opened Decimal
  import opened Texts
  import opened Versions

  const TEXT_LIMIT: nat := 64
  const MOST_DIGITS: nat := 6

  function SkipSep(s: string): string {
    if s != "" && (s[0] == '-' || s[0] == '.') then s[1..] else s
  }

  /** How many digits the text begins with. */
  function DigitRun(s: string): (n: nat)
    ensures n <= |s| && AllDigits(s[..n]) && (n < |s| ==> !IsDigit(s[n]))
  {
    if s == "" || !IsDigit(s[0]) then 0
    else
      assert s[1..][..DigitRun(s[1..])] == s[1..1 + DigitRun(s[1..])];
      1 + DigitRun(s[1..])
  }

  /** Whether the text begins with *word*, in any case. */
  predicate Begins(s: string, word: string) {
    |word| <= |s| && Lower(s[..|word|]) == word
  }

  /** The name of a pre-release a text begins with, the longest there is: its rank and its length. */
  function PreName(s: string): Option<(nat, nat)> {
    if Begins(s, "alpha") then Some((0, 5))
    else if Begins(s, "a") then Some((0, 1))
    else if Begins(s, "beta") then Some((1, 4))
    else if Begins(s, "b") then Some((1, 1))
    else if Begins(s, "c") then Some((2, 1))
    else if Begins(s, "rc") then Some((2, 2))
    else if Begins(s, "preview") then Some((2, 7))
    else if Begins(s, "pre") then Some((2, 3))
    else None
  }

  datatype Ending = Ending(pre: Option<Pre>, post: Option<nat>, dev: Option<nat>)

  function ReadDev(s: string): Option<Option<nat>> {
    var t := SkipSep(s);
    if s == "" then Some(None)
    else if !Begins(t, "dev") then None
    else
      var digits := SkipSep(t[3..]);
      if AllDigits(digits) && |digits| <= MOST_DIGITS then Some(Some(Read(digits))) else None
  }

  function ReadPost(s: string): Option<Ending> {
    var t := SkipSep(s);
    if Begins(t, "post") then
      var u := SkipSep(t[4..]);
      var n := DigitRun(u);
      var dev := ReadDev(u[n..]);
      if 1 <= n <= MOST_DIGITS && dev.Some? then Some(Ending(None, Some(Read(u[..n])), dev.value)) else None
    else
      var dev := ReadDev(s);
      if dev.Some? then Some(Ending(None, None, dev.value)) else None
  }

  function ReadEnding(s: string): Option<Ending> {
    var t := SkipSep(s);
    var name := PreName(t);
    if name.None? then ReadPost(s)
    else
      var u := SkipSep(t[name.value.1..]);
      var n := DigitRun(u);
      var rest := ReadPost(u[n..]);
      if n <= MOST_DIGITS && rest.Some? then Some(rest.value.(pre := Some(Pre(name.value.0, Read(u[..n]))))) else None
  }

  /** A release's number and what follows it. */
  function ReadNumber(s: string): Option<(nat, string)> {
    var n := DigitRun(s);
    if 1 <= n <= MOST_DIGITS then Some((Read(s[..n]), s[n..])) else None
  }

  function AfterDot(s: string): Option<string> {
    if s != "" && s[0] == '.' then Some(s[1..]) else None
  }

  function ReadVersion(s: string): Option<Version> {
    var major := ReadNumber(s);
    if major.None? || AfterDot(major.value.1).None? then None
    else
      var minor := ReadNumber(AfterDot(major.value.1).value);
      if minor.None? || AfterDot(minor.value.1).None? then None
      else
        var patch := ReadNumber(AfterDot(minor.value.1).value);
        if patch.None? then None
        else
          var ending := ReadEnding(patch.value.1);
          if ending.None? then None
          else Some(Version(major.value.0, minor.value.0, patch.value.0, ending.value.pre, ending.value.post, ending.value.dev))
  }

  function ParseVersion(text: string): Option<Version> {
    if Units(text) > TEXT_LIMIT then None
    else
      var t := Trim(text);
      ReadVersion(if Begins(t, "v") then t[1..] else t)
  }

  // ── The spellings ──

  /** A part of an ending: what stands before its word, the word, what stands between it and its number,
      and the number's digits. */
  datatype Piece = Piece(sep: string, word: string, gap: string, digits: string)

  datatype Spelling = Spelling(
    lead: string, major: string, minor: string, patch: string, pre: Option<Piece>, post: Option<Piece>, dev: Option<Piece>)

  predicate IsSep(s: string) {
    s == "" || s == "-" || s == "."
  }

  predicate IsNumber(digits: string, least: nat) {
    AllDigits(digits) && least <= |digits| <= MOST_DIGITS
  }

  predicate GoodPiece(p: Piece, least: nat) {
    IsSep(p.sep) && IsSep(p.gap) && IsNumber(p.digits, least)
  }

  /** What a pre-release's word says, in lower case. */
  function RankOf(word: string): Option<nat> {
    if word == "a" || word == "alpha" then Some(0)
    else if word == "b" || word == "beta" then Some(1)
    else if word == "c" || word == "rc" || word == "pre" || word == "preview" then Some(2)
    else None
  }

  predicate Good(sp: Spelling) {
    && (sp.lead == "" || sp.lead == "v" || sp.lead == "V")
    && IsNumber(sp.major, 1) && IsNumber(sp.minor, 1) && IsNumber(sp.patch, 1)
    && (sp.pre.Some? ==> GoodPiece(sp.pre.value, 0) && RankOf(Lower(sp.pre.value.word)).Some?)
    && (sp.post.Some? ==> GoodPiece(sp.post.value, 1) && Lower(sp.post.value.word) == "post")
    && (sp.dev.Some? ==> GoodPiece(sp.dev.value, 0) && Lower(sp.dev.value.word) == "dev")
  }

  function PieceText(p: Option<Piece>): string {
    if p.None? then "" else p.value.sep + p.value.word + p.value.gap + p.value.digits
  }

  function EndText(post: Option<Piece>, dev: Option<Piece>): string {
    PieceText(post) + PieceText(dev)
  }

  function Text(sp: Spelling): string {
    sp.lead + sp.major + "." + sp.minor + "." + sp.patch + PieceText(sp.pre) + EndText(sp.post, sp.dev)
  }

  function NumberOf(p: Option<Piece>): Option<nat>
    requires p.Some? ==> AllDigits(p.value.digits)
  {
    if p.None? then None else Some(Read(p.value.digits))
  }

  /** The version a spelling names. */
  function Meaning(sp: Spelling): Version
    requires Good(sp)
  {
    Version(Read(sp.major), Read(sp.minor), Read(sp.patch),
            if sp.pre.None? then None else Some(Pre(RankOf(Lower(sp.pre.value.word)).value, Read(sp.pre.value.digits))),
            NumberOf(sp.post), NumberOf(sp.dev))
  }

  // ── Every spelling is read ──

  lemma SepSkips(sep: string, rest: string)
    requires IsSep(sep) && (rest == "" || (rest[0] != '-' && rest[0] != '.') || sep != "")
    ensures SkipSep(sep + rest) == rest
  {
    if sep == "" {
      assert sep + rest == rest;
    } else {
      assert (sep + rest)[1..] == rest;
    }
  }

  lemma WordBegins(word: string, rest: string)
    ensures Begins(word + rest, Lower(word)) && (word + rest)[|word|..] == rest
  {
    assert (word + rest)[..|word|] == word;
  }

  lemma RunOf(digits: string, rest: string)
    requires AllDigits(digits) && (rest == "" || !IsDigit(rest[0]))
    ensures var s := digits + rest; DigitRun(s) == |digits| && s[..|digits|] == digits && s[|digits|..] == rest
  {
    var s := digits + rest;
    assert s[..|digits|] == digits && s[|digits|..] == rest;
    assert forall i | 0 <= i < |digits| :: s[i] == digits[i];
    assert forall i | 0 <= i < DigitRun(s) :: s[..DigitRun(s)][i] == s[i];
  }

  lemma PieceParts(p: Piece, rest: string)
    ensures PieceText(Some(p)) + rest == p.sep + (p.word + (p.gap + (p.digits + rest)))
  {
  }

  lemma FirstLetter(word: string)
    requires word != "" && 'a' <= Lower(word)[0] <= 'z'
    ensures word[0] != '-' && word[0] != '.' && !IsDigit(word[0])
  {
  }

  /** What the parts from *post* on begin with, once a separator is let go. */
  lemma EndBegins(post: Option<Piece>, dev: Option<Piece>)
    requires post.Some? ==> IsSep(post.value.sep) && Lower(post.value.word) == "post"
    requires dev.Some? ==> IsSep(dev.value.sep) && Lower(dev.value.word) == "dev"
    ensures var end := EndText(post, dev);
            var t := SkipSep(end);
            && (end == "" <==> post.None? && dev.None?) && (t == "" ==> end == "") && SkipSep(t) == t
            && (end != "" ==> end[0] == '-' || end[0] == '.' || end == t)
            && (post.Some? ==> Begins(t, "post"))
            && (post.None? && dev.Some? ==> Begins(t, "dev"))
  {
    if post.Some? {
      var p := post.value;
      PieceParts(p, PieceText(dev));
      FirstLetter(p.word);
      SepSkips(p.sep, p.word + (p.gap + (p.digits + PieceText(dev))));
      WordBegins(p.word, p.gap + (p.digits + PieceText(dev)));
    } else if dev.Some? {
      var p := dev.value;
      PieceParts(p, "");
      assert EndText(post, dev) == PieceText(dev) + "";
      FirstLetter(p.word);
      SepSkips(p.sep, p.word + (p.gap + (p.digits + "")));
      WordBegins(p.word, p.gap + (p.digits + ""));
    }
  }

  lemma DevReads(dev: Option<Piece>)
    requires dev.Some? ==> GoodPiece(dev.value, 0) && Lower(dev.value.word) == "dev"
    ensures ReadDev(PieceText(dev)) == Some(NumberOf(dev))
    ensures ReadDev(SkipSep(PieceText(dev))) == Some(NumberOf(dev))
  {
    EndBegins(None, dev);
    assert EndText(None, dev) == PieceText(dev);
    if dev.Some? {
      var p := dev.value;
      var rest := p.gap + p.digits;
      PieceParts(p, "");
      assert PieceText(dev) == p.sep + (p.word + rest) by {
        assert PieceText(dev) + "" == PieceText(dev) && p.digits + "" == p.digits;
      }
      FirstLetter(p.word);
      SepSkips(p.sep, p.word + rest);
      WordBegins(p.word, rest);
      SepSkips(p.gap, p.digits);
      hide Begins, EndText, PieceText, Lower;
    }
  }

  /** The letters a text begins with when it begins with *word*. */
  lemma BeginsWith(t: string, word: string)
    requires Begins(t, word)
    ensures forall k | 0 <= k < |word| :: LowerChar(t[k]) == word[k]
  {
    assert forall k | 0 <= k < |word| :: Lower(t[..|word|])[k] == LowerChar(t[k]);
  }

  predicate Starts(t: string, first: char) {
    t != "" && LowerChar(t[0]) == first
  }

  lemma BeginsStarts(t: string, word: string)
    requires word != "" && Begins(t, word)
    ensures Starts(t, word[0])
  {
    BeginsWith(t, word);
  }

  /** No pre-release's name begins with another letter than these, nor with `po`. */
  lemma NamesStart(t: string)
    requires PreName(t).Some?
    ensures Starts(t, 'a') || Starts(t, 'b') || Starts(t, 'c') || Starts(t, 'r') || (Starts(t, 'p') && |t| > 1 && LowerChar(t[1]) == 'r')
  {
    hide Begins, Starts;
    if Begins(t, "alpha") { BeginsStarts(t, "alpha"); }
    else if Begins(t, "a") { BeginsStarts(t, "a"); }
    else if Begins(t, "beta") { BeginsStarts(t, "beta"); }
    else if Begins(t, "b") { BeginsStarts(t, "b"); }
    else if Begins(t, "c") { BeginsStarts(t, "c"); }
    else if Begins(t, "rc") { BeginsStarts(t, "rc"); }
    else if Begins(t, "preview") { BeginsStarts(t, "preview"); BeginsSecond(t, "preview"); }
    else { BeginsStarts(t, "pre"); BeginsSecond(t, "pre"); }
  }

  lemma BeginsSecond(t: string, word: string)
    requires |word| > 1 && Begins(t, word)
    ensures |t| > 1 && LowerChar(t[1]) == word[1]
  {
    BeginsWith(t, word);
  }

  lemma WordsDiffer(t: string)
    ensures Begins(t, "dev") ==> !Begins(t, "post") && PreName(t).None?
    ensures Begins(t, "post") ==> PreName(t).None?
    ensures t == "" ==> !Begins(t, "post") && PreName(t).None?
  {
    hide Begins, PreName;
    if PreName(t).Some? {
      NamesStart(t);
    }
    if Begins(t, "dev") {
      BeginsStarts(t, "dev");
    }
    if Begins(t, "post") {
      BeginsStarts(t, "post");
      BeginsSecond(t, "post");
    }
  }

  lemma PostReads(post: Option<Piece>, dev: Option<Piece>)
    requires post.Some? ==> GoodPiece(post.value, 1) && Lower(post.value.word) == "post"
    requires dev.Some? ==> GoodPiece(dev.value, 0) && Lower(dev.value.word) == "dev"
    ensures ReadPost(EndText(post, dev)) == Some(Ending(None, NumberOf(post), NumberOf(dev)))
    ensures ReadPost(SkipSep(EndText(post, dev))) == Some(Ending(None, NumberOf(post), NumberOf(dev)))
  {
    EndBegins(post, dev);
    DevReads(dev);
    var end := EndText(post, dev);
    WordsDiffer(SkipSep(end));
    if post.None? {
      assert end == PieceText(dev);
      hide Begins, EndText, PieceText, SkipSep, ReadDev;
    } else {
      var p, rest := post.value, PieceText(dev);
      DevStarts(dev);
      PieceParts(p, rest);
      FirstLetter(p.word);
      SepSkips(p.sep, p.word + (p.gap + (p.digits + rest)));
      WordBegins(p.word, p.gap + (p.digits + rest));
      SepSkips(p.gap, p.digits + rest);
      RunOf(p.digits, rest);
      hide Begins, EndText, PieceText, Lower, ReadDev, DigitRun, AllDigits;
    }
  }

  lemma DevStarts(dev: Option<Piece>)
    requires dev.Some? ==> IsSep(dev.value.sep) && Lower(dev.value.word) == "dev"
    ensures PieceText(dev) == "" || !IsDigit(PieceText(dev)[0])
  {
    if dev.Some? {
      FirstLetter(dev.value.word);
    }
  }

  /** What may follow a pre-release's name: no letter that would make it a longer one. */
  predicate Follows(rest: string) {
    rest == "" || (LowerChar(rest[0]) != 'l' && LowerChar(rest[0]) != 'e' && LowerChar(rest[0]) != 'v')
  }

  lemma NoOther(t: string, first: char, word: string)
    requires Starts(t, first) && word != "" && word[0] != first
    ensures !Begins(t, word)
  {
    if Begins(t, word) {
      BeginsStarts(t, word);
    }
  }

  lemma NoLonger(t: string, k: nat, word: string)
    requires k < |t| && k < |word| && LowerChar(t[k]) != word[k]
    ensures !Begins(t, word)
  {
    if Begins(t, word) {
      BeginsWith(t, word);
    }
  }

  lemma TooShort(t: string, word: string)
    requires |t| < |word|
    ensures !Begins(t, word)
  {
  }

  lemma NameStops(word: string, rest: string, longer: string)
    requires |word| < |longer| && Follows(rest) && longer[|word|] in "lev"
    ensures !Begins(word + rest, longer)
  {
    if rest == "" {
      TooShort(word + rest, longer);
    } else {
      NoLonger(word + rest, |word|, longer);
    }
  }

  lemma NameReads(word: string, rest: string)
    requires RankOf(Lower(word)).Some? && Follows(rest)
    ensures PreName(word + rest) == Some((RankOf(Lower(word)).value, |word|))
  {
    var t, name := word + rest, Lower(word);
    WordBegins(word, rest);
    assert |word| == |name| && name != "";
    BeginsStarts(t, name);
    ShortNamesStop(word, rest);
    hide Begins, Starts, Lower, Follows;
    if name != "a" && name != "alpha" { NoOther(t, name[0], "alpha"); NoOther(t, name[0], "a"); }
    if name[0] != 'b' { NoOther(t, name[0], "beta"); NoOther(t, name[0], "b"); }
    if name[0] != 'c' { NoOther(t, name[0], "c"); }
    if name[0] != 'r' { NoOther(t, name[0], "rc"); }
  }

  /** The longer names a short one is not. */
  lemma ShortNamesStop(word: string, rest: string)
    requires Follows(rest)
    ensures Lower(word) == "a" ==> !Begins(word + rest, "alpha")
    ensures Lower(word) == "b" ==> !Begins(word + rest, "beta")
    ensures Lower(word) == "pre" ==> !Begins(word + rest, "preview")
  {
    hide Begins, Follows;
    if Lower(word) == "a" { NameStops(word, rest, "alpha"); }
    if Lower(word) == "b" { NameStops(word, rest, "beta"); }
    if Lower(word) == "pre" { NameStops(word, rest, "preview"); }
  }

  lemma EndStarts(post: Option<Piece>, dev: Option<Piece>)
    requires post.Some? ==> IsSep(post.value.sep) && Lower(post.value.word) == "post"
    requires dev.Some? ==> IsSep(dev.value.sep) && Lower(dev.value.word) == "dev"
    ensures var end := EndText(post, dev);
            end == "" || (!IsDigit(end[0]) && Follows(end))
  {
    EndBegins(post, dev);
    var end := EndText(post, dev);
    var t := SkipSep(end);
    if post.Some? {
      BeginsStarts(t, "post");
    } else if dev.Some? {
      BeginsStarts(t, "dev");
    }
    hide Begins, EndText;
  }

  lemma GapFollows(gap: string, digits: string, end: string)
    requires IsSep(gap) && AllDigits(digits) && Follows(end)
    ensures Follows(gap + (digits + end))
  {
    if gap == "" {
      assert gap + (digits + end) == digits + end;
      if digits == "" {
        assert digits + end == end;
      }
    }
  }

  /** A pre-release's word, and what is left after it. */
  lemma PreWord(p: Piece, end: string)
    requires GoodPiece(p, 0) && RankOf(Lower(p.word)).Some? && Follows(end)
    ensures var s, t, left := PieceText(Some(p)) + end, p.word + (p.gap + (p.digits + end)), p.gap + (p.digits + end);
            && SkipSep(s) == t && PreName(t) == Some((RankOf(Lower(p.word)).value, |p.word|)) && t[|p.word|..] == left
  {
    PieceParts(p, end);
    FirstLetter(p.word);
    SepSkips(p.sep, p.word + (p.gap + (p.digits + end)));
    GapFollows(p.gap, p.digits, end);
    NameReads(p.word, p.gap + (p.digits + end));
    hide SkipSep, PreName, RankOf, Lower, Follows, PieceText, Begins;
  }

  /** Its number, and what follows: a separator that stands for no number's may be the next part's own. */
  lemma PreNumber(p: Piece, post: Option<Piece>, dev: Option<Piece>)
    requires GoodPiece(p, 0)
    requires post.Some? ==> GoodPiece(post.value, 1) && Lower(post.value.word) == "post"
    requires dev.Some? ==> GoodPiece(dev.value, 0) && Lower(dev.value.word) == "dev"
    ensures var end := EndText(post, dev);
            var u := SkipSep(p.gap + (p.digits + end));
            var n := DigitRun(u);
            && n <= MOST_DIGITS && u[..n] == p.digits
            && ReadPost(u[n..]) == Some(Ending(None, NumberOf(post), NumberOf(dev)))
  {
    var end := EndText(post, dev);
    PostReads(post, dev);
    EndStarts(post, dev);
    EndRuns(post, dev);
    hide EndText, ReadPost, Lower, Follows;
    if p.gap == "" && p.digits == "" {
      assert p.gap + (p.digits + end) == end;
      var u := SkipSep(end);
      assert u[0..] == u && u[..0] == "";
    } else {
      SepSkips(p.gap, p.digits + end);
      RunOf(p.digits, end);
    }
  }

  lemma PreReads(p: Piece, post: Option<Piece>, dev: Option<Piece>)
    requires GoodPiece(p, 0) && RankOf(Lower(p.word)).Some?
    requires post.Some? ==> GoodPiece(post.value, 1) && Lower(post.value.word) == "post"
    requires dev.Some? ==> GoodPiece(dev.value, 0) && Lower(dev.value.word) == "dev"
    ensures ReadEnding(PieceText(Some(p)) + EndText(post, dev))
            == Some(Ending(Some(Pre(RankOf(Lower(p.word)).value, Read(p.digits))), NumberOf(post), NumberOf(dev)))
  {
    hide PieceText, EndText, PreName, ReadPost, SkipSep, DigitRun, Lower, RankOf, Follows;
    EndStarts(post, dev);
    assert Follows(EndText(post, dev)) by { EndFollows(post, dev); }
    PreWord(p, EndText(post, dev));
    PreNumber(p, post, dev);
  }

  lemma EndFollows(post: Option<Piece>, dev: Option<Piece>)
    requires post.Some? ==> IsSep(post.value.sep) && Lower(post.value.word) == "post"
    requires dev.Some? ==> IsSep(dev.value.sep) && Lower(dev.value.word) == "dev"
    ensures Follows(EndText(post, dev))
  {
    EndStarts(post, dev);
  }

  lemma EndRuns(post: Option<Piece>, dev: Option<Piece>)
    requires post.Some? ==> IsSep(post.value.sep) && Lower(post.value.word) == "post"
    requires dev.Some? ==> IsSep(dev.value.sep) && Lower(dev.value.word) == "dev"
    ensures DigitRun(SkipSep(EndText(post, dev))) == 0
  {
    EndBegins(post, dev);
    var t := SkipSep(EndText(post, dev));
    if post.Some? {
      BeginsStarts(t, "post");
    } else if dev.Some? {
      BeginsStarts(t, "dev");
    }
    hide Begins, EndText, SkipSep;
  }

  lemma EndingReads(pre: Option<Piece>, post: Option<Piece>, dev: Option<Piece>)
    requires pre.Some? ==> GoodPiece(pre.value, 0) && RankOf(Lower(pre.value.word)).Some?
    requires post.Some? ==> GoodPiece(post.value, 1) && Lower(post.value.word) == "post"
    requires dev.Some? ==> GoodPiece(dev.value, 0) && Lower(dev.value.word) == "dev"
    ensures ReadEnding(PieceText(pre) + EndText(post, dev)) == Some(Ending(
              if pre.None? then None else Some(Pre(RankOf(Lower(pre.value.word)).value, Read(pre.value.digits))),
              NumberOf(post), NumberOf(dev)))
  {
    if pre.Some? {
      PreReads(pre.value, post, dev);
    } else {
      PostReads(post, dev);
      EndBegins(post, dev);
      WordsDiffer(SkipSep(EndText(post, dev)));
      assert PieceText(pre) + EndText(post, dev) == EndText(post, dev);
      hide EndText, Begins, SkipSep, PreName, ReadPost;
    }
  }

  lemma EndingStarts(pre: Option<Piece>, post: Option<Piece>, dev: Option<Piece>)
    requires pre.Some? ==> IsSep(pre.value.sep) && RankOf(Lower(pre.value.word)).Some?
    requires post.Some? ==> IsSep(post.value.sep) && Lower(post.value.word) == "post"
    requires dev.Some? ==> IsSep(dev.value.sep) && Lower(dev.value.word) == "dev"
    ensures var end := PieceText(pre) + EndText(post, dev); end == "" || !IsDigit(end[0])
  {
    EndStarts(post, dev);
    if pre.Some? {
      var p := pre.value;
      FirstLetter(p.word);
      PieceParts(p, EndText(post, dev));
      hide EndText;
      assert PieceText(pre)[0] == if p.sep == "" then p.word[0] else p.sep[0];
    } else {
      assert PieceText(pre) + EndText(post, dev) == EndText(post, dev);
    }
  }

  lemma NumberReads(digits: string, rest: string)
    requires IsNumber(digits, 1) && (rest == "" || !IsDigit(rest[0]))
    ensures ReadNumber(digits + rest) == Some((Read(digits), rest))
  {
    RunOf(digits, rest);
  }

  function Body(sp: Spelling): string {
    sp.major + ("." + (sp.minor + ("." + (sp.patch + (PieceText(sp.pre) + EndText(sp.post, sp.dev))))))
  }

  lemma TextIsLeadAndBody(sp: Spelling)
    ensures Text(sp) == sp.lead + Body(sp)
  {
    hide PieceText, EndText;
  }

  lemma NumbersRead(major: string, minor: string, patch: string, end: string)
    requires IsNumber(major, 1) && IsNumber(minor, 1) && IsNumber(patch, 1) && (end == "" || !IsDigit(end[0]))
    requires ReadEnding(end).Some?
    ensures var e := ReadEnding(end).value;
            ReadVersion(major + ("." + (minor + ("." + (patch + end)))))
            == Some(Version(Read(major), Read(minor), Read(patch), e.pre, e.post, e.dev))
  {
    hide ReadEnding, ReadNumber, Read, IsNumber;
    var afterMinor := "." + (patch + end);
    var afterMajor := "." + (minor + afterMinor);
    NumberReads(patch, end);
    NumberReads(minor, afterMinor);
    NumberReads(major, afterMajor);
    assert afterMinor[1..] == patch + end;
    assert afterMajor[1..] == minor + afterMinor;
  }

  lemma BodyReads(sp: Spelling)
    requires Good(sp)
    ensures ReadVersion(Body(sp)) == Some(Meaning(sp))
  {
    hide PieceText, EndText, ReadEnding, RankOf, Lower, IsSep, ReadVersion;
    EndingReads(sp.pre, sp.post, sp.dev);
    EndingStarts(sp.pre, sp.post, sp.dev);
    NumbersRead(sp.major, sp.minor, sp.patch, PieceText(sp.pre) + EndText(sp.post, sp.dev));
  }

  lemma LeadIsRead(lead: string, body: string)
    requires lead == "" || lead == "v" || lead == "V"
    requires body != "" && IsDigit(body[0])
    ensures var t := lead + body; (if Begins(t, "v") then t[1..] else t) == body
  {
    if lead == "" {
      assert lead + body == body;
      NoLonger(body, 0, "v");
    } else {
      WordBegins(lead, body);
    }
  }

  lemma BodyStarts(sp: Spelling)
    requires Good(sp)
    ensures Body(sp) != "" && IsDigit(Body(sp)[0])
  {
    hide PieceText, EndText;
    assert Body(sp)[0] == sp.major[0];
  }

  /** Every spelling, with any white space about it, is read as the version it names, exactly when it is
      no longer than the limit. */
  lemma SpellingIsRead(text: string, sp: Spelling)
    requires Good(sp) && Trim(text) == Text(sp)
    ensures ParseVersion(text) == if Units(text) <= TEXT_LIMIT then Some(Meaning(sp)) else None
  {
    assert sp.lead == "" || sp.lead == "v" || sp.lead == "V";
    hide Body, ReadVersion, Meaning, Units, Trim, Text, Good, Begins;
    TextIsLeadAndBody(sp);
    BodyReads(sp);
    BodyStarts(sp);
    LeadIsRead(sp.lead, Body(sp));
  }

  // ── What is read is a spelling ──

  lemma SepOf(s: string) returns (sep: string)
    ensures IsSep(sep) && s == sep + SkipSep(s)
  {
    sep := s[..|s| - |SkipSep(s)|];
  }

  lemma DevIsText(s: string) returns (dev: Option<Piece>)
    requires ReadDev(s).Some?
    ensures PieceText(dev) == s && (dev.Some? ==> GoodPiece(dev.value, 0) && Lower(dev.value.word) == "dev")
    ensures ReadDev(s) == Some(NumberOf(dev))
  {
    dev := None;
    if s != "" {
      var t := SkipSep(s);
      var word, left := t[..3], t[3..];
      var digits := SkipSep(left);
      assert Lower(word) == "dev" && IsNumber(digits, 0) && ReadDev(s) == Some(Some(Read(digits)));
      hide SkipSep, Lower, Begins, ReadDev, AllDigits;
      var sep := SepOf(s);
      var gap := SepOf(left);
      dev := Some(Piece(sep, word, gap, digits));
      assert t == word + left;
      hide PieceText;
      WholePiece(sep, word, gap, digits);
    }
  }

  lemma WholePiece(sep: string, word: string, gap: string, digits: string)
    ensures PieceText(Some(Piece(sep, word, gap, digits))) == sep + (word + (gap + digits))
  {
  }

  lemma PostIsText(s: string) returns (post: Option<Piece>, dev: Option<Piece>)
    requires ReadPost(s).Some?
    ensures EndText(post, dev) == s
    ensures post.Some? ==> GoodPiece(post.value, 1) && Lower(post.value.word) == "post"
    ensures dev.Some? ==> GoodPiece(dev.value, 0) && Lower(dev.value.word) == "dev"
    ensures ReadPost(s) == Some(Ending(None, NumberOf(post), NumberOf(dev)))
  {
    hide ReadDev;
    var t := SkipSep(s);
    if Begins(t, "post") {
      post, dev := PostPart(s);
    } else {
      hide Begins, SkipSep;
      post := None;
      dev := DevIsText(s);
      assert "" + PieceText(dev) == PieceText(dev);
    }
  }

  lemma PostPart(s: string) returns (post: Option<Piece>, dev: Option<Piece>)
    requires ReadPost(s).Some? && Begins(SkipSep(s), "post")
    ensures EndText(post, dev) == s
    ensures post.Some? && GoodPiece(post.value, 1) && Lower(post.value.word) == "post"
    ensures dev.Some? ==> GoodPiece(dev.value, 0) && Lower(dev.value.word) == "dev"
    ensures ReadPost(s) == Some(Ending(None, NumberOf(post), NumberOf(dev)))
  {
    var t := SkipSep(s);
    var word, left := t[..4], t[4..];
    var u := SkipSep(left);
    var n := DigitRun(u);
    var digits, rest := u[..n], u[n..];
    assert Lower(word) == "post" && IsNumber(digits, 1);
    assert ReadDev(rest).Some? && ReadPost(s) == Some(Ending(None, Some(Read(digits)), ReadDev(rest).value));
    assert t == word + left && u == digits + rest;
    hide SkipSep, Lower, Begins, ReadDev, ReadPost, AllDigits, DigitRun;
    var sep := SepOf(s);
    var gap := SepOf(left);
    dev := DevIsText(rest);
    post := Some(Piece(sep, word, gap, digits));
    Reassembled(sep, word, gap, digits, rest);
  }

  lemma Reassembled(sep: string, word: string, gap: string, digits: string, rest: string)
    ensures PieceText(Some(Piece(sep, word, gap, digits))) + rest == sep + (word + (gap + (digits + rest)))
  {
    PieceParts(Piece(sep, word, gap, digits), rest);
  }

  lemma NameIsRank(t: string)
    requires PreName(t).Some?
    ensures var (rank, length) := PreName(t).value;
            0 < length <= |t| && RankOf(Lower(t[..length])) == Some(rank)
  {
  }

  lemma PrePart(s: string) returns (pre: Piece, rest: string)
    requires ReadEnding(s).Some? && PreName(SkipSep(s)).Some?
    ensures PieceText(Some(pre)) + rest == s && GoodPiece(pre, 0) && RankOf(Lower(pre.word)).Some?
    ensures ReadPost(rest).Some?
    ensures ReadEnding(s).value == ReadPost(rest).value.(pre := Some(Pre(RankOf(Lower(pre.word)).value, Read(pre.digits))))
  {
    hide SkipSep, Lower, RankOf, PreName, ReadPost, ReadEnding, AllDigits, DigitRun, IsSep;
    PreFacts(s);
    var t := SkipSep(s);
    var length := PreName(t).value.1;
    var word, left := t[..length], t[length..];
    var u := SkipSep(left);
    var digits := u[..DigitRun(u)];
    rest := u[DigitRun(u)..];
    assert t == word + left && u == digits + rest;
    var sep := SepOf(s);
    var gap := SepOf(left);
    pre := Piece(sep, word, gap, digits);
    Reassembled(sep, word, gap, digits, rest);
  }

  /** What an ending with a pre-release was read as. */
  lemma PreFacts(s: string)
    requires ReadEnding(s).Some? && PreName(SkipSep(s)).Some?
    ensures var t := SkipSep(s);
            var (rank, length) := PreName(t).value;
            length <= |t| && RankOf(Lower(t[..length])) == Some(rank) &&
            var u := SkipSep(t[length..]);
            var n := DigitRun(u);
            && IsNumber(u[..n], 0) && ReadPost(u[n..]).Some?
            && ReadEnding(s).value == ReadPost(u[n..]).value.(pre := Some(Pre(rank, Read(u[..n]))))
  {
    NameIsRank(SkipSep(s));
    hide SkipSep, Lower, RankOf, PreName, ReadPost;
  }

  lemma EndingIsText(s: string) returns (pre: Option<Piece>, post: Option<Piece>, dev: Option<Piece>)
    requires ReadEnding(s).Some?
    ensures PieceText(pre) + EndText(post, dev) == s
    ensures pre.Some? ==> GoodPiece(pre.value, 0) && RankOf(Lower(pre.value.word)).Some?
    ensures post.Some? ==> GoodPiece(post.value, 1) && Lower(post.value.word) == "post"
    ensures dev.Some? ==> GoodPiece(dev.value, 0) && Lower(dev.value.word) == "dev"
  {
    hide ReadPost, SkipSep, PreName, DigitRun, EndText;
    if PreName(SkipSep(s)).Some? {
      var piece, rest := PrePart(s);
      pre := Some(piece);
      post, dev := PostIsText(rest);
    } else {
      pre := None;
      post, dev := PostIsText(s);
      assert "" + EndText(post, dev) == EndText(post, dev);
    }
  }

  lemma NumberIsText(s: string) returns (digits: string)
    requires ReadNumber(s).Some?
    ensures IsNumber(digits, 1) && s == digits + ReadNumber(s).value.1
  {
    digits := s[..DigitRun(s)];
  }

  lemma DotIsText(s: string)
    requires AfterDot(s).Some?
    ensures s == "." + AfterDot(s).value
  {
  }

  lemma VersionIsText(s: string) returns (sp: Spelling)
    requires ReadVersion(s).Some?
    ensures Good(sp) && sp.lead == "" && Body(sp) == s
  {
    hide ReadNumber, AfterDot, ReadEnding, IsNumber, GoodPiece, Lower, RankOf, PieceText, EndText;
    var major := NumberIsText(s);
    var one := ReadNumber(s).value.1;
    DotIsText(one);
    var two := AfterDot(one).value;
    var minor := NumberIsText(two);
    var three := ReadNumber(two).value.1;
    DotIsText(three);
    var four := AfterDot(three).value;
    var patch := NumberIsText(four);
    var pre, post, dev := EndingIsText(ReadNumber(four).value.1);
    sp := Spelling("", major, minor, patch, pre, post, dev);
  }

  lemma ReadIsSpelling(t: string) returns (sp: Spelling)
    requires ReadVersion(if Begins(t, "v") then t[1..] else t).Some?
    ensures Good(sp) && Text(sp) == t
  {
    hide Good, Begins, ReadVersion, Text, Body;
    if Begins(t, "v") {
      LeadLetter(t);
    }
    sp := VersionIsText(if Begins(t, "v") then t[1..] else t);
    if Begins(t, "v") {
      WithLead(sp, t[..1]);
      sp := sp.(lead := t[..1]);
    } else {
      WithLead(sp, "");
      assert "" + t == t;
    }
  }

  lemma LeadLetter(t: string)
    requires Begins(t, "v")
    ensures t != "" && (t[..1] == "v" || t[..1] == "V") && t == t[..1] + t[1..]
  {
    BeginsWith(t, "v");
  }

  lemma WithLead(sp: Spelling, lead: string)
    requires Good(sp) && (lead == "" || lead == "v" || lead == "V")
    ensures Good(sp.(lead := lead)) && Text(sp.(lead := lead)) == lead + Body(sp)
  {
    TextIsLeadAndBody(sp.(lead := lead));
    hide Text, PieceText, EndText, GoodPiece, RankOf, Lower;
  }

  /** A text names a version exactly when it is no longer than the limit and, the white space about it
      dropped, it is one of the spellings that name it. */
  lemma NamesVersionExactlyWhen(text: string, version: Version)
    ensures ParseVersion(text) == Some(version) <==>
            Units(text) <= TEXT_LIMIT && exists sp :: Good(sp) && Text(sp) == Trim(text) && Meaning(sp) == version
  {
    if ParseVersion(text).Some? {
      var sp := ReadIsSpelling(Trim(text));
      SpellingIsRead(text, sp);
    }
    forall sp | Good(sp) && Text(sp) == Trim(text)
      ensures Units(text) <= TEXT_LIMIT ==> ParseVersion(text) == Some(Meaning(sp))
    {
      SpellingIsRead(text, sp);
    }
    hide Good, Text, Trim, Units, ReadVersion, Meaning, Begins;
  }
}
