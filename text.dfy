/**
 * Strings as the handlers assemble them with a strings.Builder, and the two
 * splittings (at newlines and at tabs) that take a rendered text apart again.
 * Also Go's strings.TrimSpace, which the stdio loop uses to skip blank lines.
 */
module Text {

  const NL: char := '\n'
  const TAB: char := '\t'

  /** The text a builder holds after writing each of `ls` followed by a newline. */
  function Lines(ls: seq<string>): string
  {
    if ls == [] then "" else ls[0] + [NL] + Lines(ls[1..])
  }

  lemma {:induction false} LinesAppend(a: seq<string>, b: seq<string>)
    ensures Lines(a + b) == Lines(a) + Lines(b)
  {
    if a == [] {
      assert a + b == b;
    } else {
      assert (a + b)[0] == a[0];
      assert (a + b)[1..] == a[1..] + b;
      LinesAppend(a[1..], b);
    }
  }

  /** Writing one more line to a builder appends it and a newline. */
  lemma LinesSnoc(ls: seq<string>, k: nat)
    requires k < |ls|
    ensures Lines(ls[..k + 1]) == Lines(ls[..k]) + ls[k] + [NL]
  {
    assert ls[..k + 1] == ls[..k] + [ls[k]];
    LinesAppend(ls[..k], [ls[k]]);
    assert Lines([ls[k]]) == ls[k] + [NL] + Lines([]);
  }

  /** The same after text written earlier. */
  lemma LinesSnocAfter(sb: string, ls: seq<string>, k: nat)
    requires k < |ls|
    ensures sb + Lines(ls[..k + 1]) == sb + Lines(ls[..k]) + ls[k] + [NL]
  {
    LinesSnoc(ls, k);
  }

  /** Index of the first `c` in `s`, or |s| when `s` has none. */
  function Find(s: string, c: char): (i: nat)
    ensures i <= |s|
    ensures forall j :: 0 <= j < i ==> s[j] != c
    ensures i < |s| ==> s[i] == c
  {
    if s == [] then 0 else if s[0] == c then 0 else 1 + Find(s[1..], c)
  }

  /** A separator after a separator-free prefix is the first one found. */
  lemma FindAfter(a: string, c: char, b: string)
    requires c !in a
    ensures Find(a + [c] + b, c) == |a|
  {
    var s := a + [c] + b;
    assert s[|a|] == c;
    assert forall j :: 0 <= j < |a| ==> s[j] == a[j];
  }

  /** Go's strings.Split(s, string(c)): the pieces between the separators. */
  function Split(s: string, c: char): (parts: seq<string>)
    ensures |parts| >= 1
    decreases |s|
  {
    var i := Find(s, c);
    if i == |s| then [s] else [s[..i]] + Split(s[i + 1..], c)
  }

  /** Go's strings.Join(parts, string(c)). */
  function Join(parts: seq<string>, c: char): string
  {
    if parts == [] then ""
    else if |parts| == 1 then parts[0]
    else parts[0] + [c] + Join(parts[1..], c)
  }

  /** Splitting undoes joining when no part contains the separator. */
  lemma {:induction false} SplitJoin(parts: seq<string>, c: char)
    requires |parts| >= 1
    requires forall k :: 0 <= k < |parts| ==> c !in parts[k]
    ensures Split(Join(parts, c), c) == parts
  {
    if |parts| == 1 {
      assert Find(parts[0], c) == |parts[0]|;
    } else {
      var rest := Join(parts[1..], c);
      var s := parts[0] + [c] + rest;
      FindAfter(parts[0], c, rest);
      assert s[..|parts[0]|] == parts[0];
      assert s[|parts[0]| + 1..] == rest;
      SplitJoin(parts[1..], c);
      assert parts == [parts[0]] + parts[1..];
    }
  }

  /**
   * The lines of a text: the pieces ended by newlines, then the unterminated
   * remainder if there is one.
   */
  function SplitLines(s: string): seq<string>
    decreases |s|
  {
    if s == [] then []
    else
      var i := Find(s, NL);
      if i == |s| then [s] else [s[..i]] + SplitLines(s[i + 1..])
  }

  /** A newline-free line followed by a newline splits off as the first line. */
  lemma SplitLinesCons(head: string, tail: string)
    requires NL !in head
    ensures SplitLines(head + [NL] + tail) == [head] + SplitLines(tail)
  {
    var s := head + [NL] + tail;
    FindAfter(head, NL, tail);
    assert s[..|head|] == head;
    assert s[|head| + 1..] == tail;
  }

  /** Newline-free lines written to a builder come back as the first lines of its text. */
  lemma {:induction false} SplitLinesAfter(ls: seq<string>, rest: string)
    requires forall k :: 0 <= k < |ls| ==> NL !in ls[k]
    ensures SplitLines(Lines(ls) + rest) == ls + SplitLines(rest)
  {
    if ls == [] {
      assert Lines(ls) + rest == rest;
    } else {
      var tail := Lines(ls[1..]) + rest;
      calc {
        SplitLines(Lines(ls) + rest);
        { assert Lines(ls) + rest == ls[0] + [NL] + tail; }
        SplitLines(ls[0] + [NL] + tail);
        { SplitLinesCons(ls[0], tail); }
        [ls[0]] + SplitLines(tail);
        { SplitLinesAfter(ls[1..], rest); }
        [ls[0]] + (ls[1..] + SplitLines(rest));
        { assert ls == [ls[0]] + ls[1..]; }
        ls + SplitLines(rest);
      }
    }
  }

  /** Newline-free lines written to a builder are exactly the lines of its text. */
  lemma SplitLinesOfLines(ls: seq<string>)
    requires forall k :: 0 <= k < |ls| ==> NL !in ls[k]
    ensures SplitLines(Lines(ls)) == ls
  {
    SplitLinesAfter(ls, "");
    assert Lines(ls) + "" == Lines(ls);
  }

  /** A builder's text begins with the first line written to it. */
  lemma LinesStartWith(ls: seq<string>)
    requires ls != []
    ensures |ls[0]| < |Lines(ls)| && Lines(ls)[..|ls[0]| + 1] == ls[0] + [NL]
  {
  }

  /** Joining separator-free parts with `c` adds no `d` other than `c`. */
  lemma {:induction false} JoinFree(parts: seq<string>, c: char, d: char)
    requires c != d
    requires forall k :: 0 <= k < |parts| ==> d !in parts[k]
    ensures d !in Join(parts, c)
  {
    if |parts| > 1 {
      JoinFree(parts[1..], c, d);
    }
  }

  /** Every piece is free of tabs and newlines. */
  predicate Plain(parts: seq<string>)
  {
    forall k :: 0 <= k < |parts| ==> TAB !in parts[k] && NL !in parts[k]
  }

  predicate StartsWith(s: string, prefix: string)
  {
    |prefix| <= |s| && s[..|prefix|] == prefix
  }

  /** Go's unicode.IsSpace. */
  predicate IsSpace(c: char)
  {
    || c == ' ' || c == '\t' || c == '\n' || c == '\U{000B}' || c == '\U{000C}' || c == '\r'
    || c == '\U{0085}' || c == '\U{00A0}' || c == '\U{1680}'
    || ('\U{2000}' <= c <= '\U{200A}')
    || c == '\U{2028}' || c == '\U{2029}' || c == '\U{202F}' || c == '\U{205F}' || c == '\U{3000}'
  }

  /** Go's strings.TrimLeftFunc(s, unicode.IsSpace). */
  function TrimLeft(s: string): (r: string)
    ensures |r| <= |s| && r == s[|s| - |r|..]
    ensures r != [] ==> !IsSpace(r[0])
    ensures forall j :: 0 <= j < |s| - |r| ==> IsSpace(s[j])
  {
    if s != [] && IsSpace(s[0]) then TrimLeft(s[1..]) else s
  }

  /** Go's strings.TrimRightFunc(s, unicode.IsSpace). */
  function TrimRight(s: string): (r: string)
    ensures |r| <= |s| && r == s[..|r|]
    ensures r != [] ==> !IsSpace(r[|r| - 1])
    ensures forall j :: |r| <= j < |s| ==> IsSpace(s[j])
  {
    if s != [] && IsSpace(s[|s| - 1]) then TrimRight(s[..|s| - 1]) else s
  }

  /** Go's strings.TrimSpace. */
  function TrimSpace(s: string): string
  {
    TrimRight(TrimLeft(s))
  }

  /** A line trims to nothing exactly when every character of it is white space. */
  lemma TrimSpaceEmpty(s: string)
    ensures |TrimSpace(s)| == 0 <==> forall j :: 0 <= j < |s| ==> IsSpace(s[j])
  {
    var l := TrimLeft(s);
    if forall j :: 0 <= j < |s| ==> IsSpace(s[j]) {
      assert l == [];
    }
  }
}
