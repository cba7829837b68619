/** Texts cut at a character and put together again. */
module Texts {
  /** Where *c* first is in the text, or its length when it is not there. */
  function IndexOf(s: string, c: char): (at: nat)
    ensures at <= |s|
    ensures at < |s| ==> s[at] == c
    ensures forall i | 0 <= i < at :: s[i] != c
  {
    if s == [] || s[0] == c then 0 else 1 + IndexOf(s[1..], c)
  }

  predicate Free(s: string, c: char) {
    forall i | 0 <= i < |s| :: s[i] != c
  }

  lemma IndexAfter(text: string, c: char, rest: string)
    requires Free(text, c)
    ensures IndexOf(text + [c] + rest, c) == |text|
  {
    var s := text + [c] + rest;
    assert s[|text|] == c;
    assert forall i | 0 <= i < |text| :: s[i] == text[i];
  }

  /** The pieces between the separators: one more than there are separators. */
  function Split(s: string, c: char): (parts: seq<string>)
    ensures parts != []
    ensures forall i | 0 <= i < |parts| :: Free(parts[i], c)
    decreases |s|
  {
    var at := IndexOf(s, c);
    if at == |s| then [s] else [s[..at]] + Split(s[at + 1..], c)
  }

  function Join(parts: seq<string>, c: char): string {
    if parts == [] then ""
    else if |parts| == 1 then parts[0]
    else parts[0] + [c] + Join(parts[1..], c)
  }

  lemma JoinFirst(first: string, rest: seq<string>, c: char)
    requires rest != []
    ensures Join([first] + rest, c) == first + [c] + Join(rest, c)
  {
    assert ([first] + rest)[1..] == rest;
  }

  lemma {:induction false} JoinOfSplit(s: string, c: char)
    ensures Join(Split(s, c), c) == s
    decreases |s|
  {
    var at := IndexOf(s, c);
    if at < |s| {
      var rest := Split(s[at + 1..], c);
      assert Split(s, c) == [s[..at]] + rest;
      JoinOfSplit(s[at + 1..], c);
      hide Split, Free, Join;
      JoinFirst(s[..at], rest, c);
      assert s == s[..at] + [c] + s[at + 1..];
    }
  }

  lemma {:induction false} SplitOfJoin(parts: seq<string>, c: char)
    requires parts != [] && forall i | 0 <= i < |parts| :: Free(parts[i], c)
    ensures Split(Join(parts, c), c) == parts
  {
    if |parts| > 1 {
      var rest := Join(parts[1..], c);
      IndexAfter(parts[0], c, rest);
      SplitOfJoin(parts[1..], c);
      var s := parts[0] + [c] + rest;
      assert s[..|parts[0]|] == parts[0] && s[|parts[0]| + 1..] == rest;
    }
  }

  lemma {:induction false} JoinLast(parts: seq<string>, last: string, c: char)
    requires parts != []
    ensures Join(parts + [last], c) == Join(parts, c) + [c] + last
  {
    if |parts| > 1 {
      JoinLast(parts[1..], last, c);
      assert (parts + [last])[1..] == parts[1..] + [last];
    }
  }

  /** The pieces before the last of a text: none when it is empty, else those of what the separator it
      ends in ends. */
  function Before(s: string, c: char): seq<string>
    requires s == "" || s[|s| - 1] == c
  {
    if s == "" then [] else Split(s[..|s| - 1], c)
  }

  lemma JoinBefore(s: string, last: string, c: char)
    requires s == "" || s[|s| - 1] == c
    ensures Join(Before(s, c) + [last], c) == s + last
  {
    if s == "" {
      assert Before(s, c) + [last] == [last];
    } else {
      var front := s[..|s| - 1];
      JoinOfSplit(front, c);
      JoinLast(Split(front, c), last, c);
      hide Split, Join;
      assert s == front + [c];
    }
  }

  lemma SplitLast(s: string, last: string, c: char)
    requires Free(last, c) && (s == "" || s[|s| - 1] == c)
    ensures Split(s + last, c) == Before(s, c) + [last]
  {
    var parts := Before(s, c) + [last];
    assert forall i | 0 <= i < |parts| :: Free(parts[i], c);
    hide Split, Join, Before, Free;
    JoinBefore(s, last, c);
    SplitOfJoin(parts, c);
  }

  lemma {:induction false} JoinFree(parts: seq<string>, sep: char, c: char)
    requires sep != c && forall i | 0 <= i < |parts| :: Free(parts[i], c)
    ensures Free(Join(parts, sep), c)
  {
    if |parts| > 1 {
      JoinFree(parts[1..], sep, c);
    }
  }

  /** What pieces that are not empty begin and end with, their join does. */
  lemma {:induction false} JoinEnds(parts: seq<string>, sep: char)
    requires parts != [] && forall i | 0 <= i < |parts| :: parts[i] != ""
    ensures var s, last := Join(parts, sep), parts[|parts| - 1];
            s != "" && s[0] == parts[0][0] && s[|s| - 1] == last[|last| - 1]
  {
    if |parts| > 1 {
      JoinEnds(parts[1..], sep);
      var rest := Join(parts[1..], sep);
      assert Join(parts, sep) == parts[0] + [sep] + rest;
    }
  }

  // ── Lower case, of ASCII letters ──

  function Lower(s: string): (lower: string)
    ensures |lower| == |s|
  {
    seq(|s|, i requires 0 <= i < |s| => LowerChar(s[i]))
  }

  function LowerChar(c: char): char {
    if 'A' <= c <= 'Z' then c - 'A' + 'a' else c
  }

  // ── Lengths and edges ──

  /** UTF-16 code units. */
  function Units(s: string): (n: nat)
    ensures n >= |s|
  {
    if s == "" then 0 else (if s[0] as int < 0x10000 then 1 else 2) + Units(s[1..])
  }

  /** The white space a trim removes. */
  predicate IsSpace(c: char) {
    var n := c as int;
    || 9 <= n <= 13 || n == 32 || n == 0xa0 || n == 0x1680 || 0x2000 <= n <= 0x200a
    || n == 0x2028 || n == 0x2029 || n == 0x202f || n == 0x205f || n == 0x3000 || n == 0xfeff
  }

  function TrimLeft(s: string): string {
    if s != "" && IsSpace(s[0]) then TrimLeft(s[1..]) else s
  }

  function TrimRight(s: string): string {
    if s != "" && IsSpace(s[|s| - 1]) then TrimRight(s[..|s| - 1]) else s
  }

  function Trim(s: string): string {
    TrimRight(TrimLeft(s))
  }
}
