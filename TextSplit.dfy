/**
 * Splitting a text on the space character with empty pieces removed, as
 * `String.Split(' ', StringSplitOptions.RemoveEmptyEntries)` does. Only the
 * space character separates; tabs and other whitespace stay inside pieces.
 */
module TextSplit {

  /** A piece that splitting can produce: non-empty and free of spaces. */
  predicate IsToken(t: string)
  {
    t != [] && ' ' !in t
  }

  /** The leading run of non-space characters of `s`. */
  function Word(s: string): (w: string)
    ensures w <= s && ' ' !in w
    ensures |w| < |s| ==> s[|w|] == ' '
  {
    if s == [] || s[0] == ' ' then [] else [s[0]] + Word(s[1..])
  }

  /** The space-separated pieces of `s`, empty pieces removed. */
  function Split(s: string): (parts: seq<string>)
    ensures forall k :: 0 <= k < |parts| ==> IsToken(parts[k])
    decreases |s|
  {
    if s == [] then []
    else if s[0] == ' ' then Split(s[1..])
    else
      var w := Word(s);
      [w] + Split(s[|w|..])
  }

  /** The pieces written back with one space between each two. */
  function Join(parts: seq<string>): (s: string)
  {
    if parts == [] then ""
    else if |parts| == 1 then parts[0]
    else parts[0] + " " + Join(parts[1..])
  }

  /** A space-free prefix followed by a space or by nothing is the leading word. */
  lemma {:induction false} WordOfPrefix(t: string, rest: string)
    requires ' ' !in t
    requires rest == [] || rest[0] == ' '
    ensures Word(t + rest) == t
    decreases |t|
  {
    if t != [] {
      assert (t + rest)[1..] == t[1..] + rest;
      WordOfPrefix(t[1..], rest);
    }
  }

  /** Splitting the joined tokens gives the tokens back. */
  lemma {:induction false} SplitJoin(parts: seq<string>)
    requires forall k :: 0 <= k < |parts| ==> IsToken(parts[k])
    ensures Split(Join(parts)) == parts
    decreases |parts|
  {
    if parts != [] {
      var t := parts[0];
      var rest := if |parts| == 1 then "" else " " + Join(parts[1..]);
      assert Join(parts) == t + rest;
      WordOfPrefix(t, rest);
      assert (t + rest)[|t|..] == rest;
      if |parts| > 1 {
        SplitJoin(parts[1..]);
        assert rest[1..] == Join(parts[1..]);
      }
    }
  }

  /** A word is cut off at the first space, whatever follows it. */
  lemma {:induction false} WordOfLonger(s: string, more: string)
    requires |Word(s)| < |s|
    ensures Word(s + more) == Word(s)
    decreases |s|
  {
    if s[0] != ' ' {
      assert (s + more)[1..] == s[1..] + more;
      WordOfLonger(s[1..], more);
    }
  }

  /**
   * A space separates: the pieces of `a + " " + b` are those of `a` followed by
   * those of `b`. So runs of spaces act as one separator, and leading and
   * trailing spaces are ignored.
   */
  lemma {:induction false} SplitAtSpace(a: string, b: string)
    ensures Split(a + " " + b) == Split(a) + Split(b)
    decreases |a|
  {
    var s := a + " " + b;
    if a == [] {
      assert s[1..] == b;
    } else if a[0] == ' ' {
      assert s[1..] == a[1..] + " " + b;
      SplitAtSpace(a[1..], b);
    } else {
      var w := Word(a);
      if |w| < |a| {
        WordOfLonger(a, " " + b);
      } else {
        assert w == a;
        WordOfPrefix(a, " " + b);
      }
      assert s == a + (" " + b);
      assert Word(s) == w;
      assert s[|w|..] == a[|w|..] + " " + b;
      SplitAtSpace(a[|w|..], b);
    }
  }

  /** Leading and trailing spaces are ignored, and two spaces separate like one. */
  lemma ExtraSpacesIgnored(a: string, b: string)
    ensures Split(" " + a) == Split(a)
    ensures Split(a + " ") == Split(a)
    ensures Split(a + "  " + b) == Split(a + " " + b)
  {
    LeadingSpace(a);
    TrailingSpace(a);
    DoubleSpace(a, b);
  }

  lemma LeadingSpace(a: string)
    ensures Split(" " + a) == Split(a)
  {
    assert (" " + a)[1..] == a;
  }

  lemma TrailingSpace(a: string)
    ensures Split(a + " ") == Split(a)
  {
    SplitAtSpace(a, "");
    assert a + " " + "" == a + " ";
  }

  lemma DoubleSpace(a: string, b: string)
    ensures Split(a + "  " + b) == Split(a + " " + b)
  {
    SplitAtSpace(a, " " + b);
    SplitAtSpace(a, b);
    LeadingSpace(b);
    assert a + " " + (" " + b) == a + "  " + b;
  }
}
