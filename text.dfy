/**
 * String helpers with the behaviour of the JavaScript and Python string
 * methods the modelled code calls. Case mapping covers ASCII letters only.
 */
module Text {

  function LowerChar(c: char): char {
    if 'A' <= c <= 'Z' then (c as int + 32) as char else c
  }

  function UpperChar(c: char): char {
    if 'a' <= c <= 'z' then (c as int - 32) as char else c
  }

  /** String.prototype.toLowerCase / str.lower. */
  function Lower(s: string): (r: string)
    ensures |r| == |s|
    ensures forall i :: 0 <= i < |s| ==> r[i] == LowerChar(s[i])
  {
    seq(|s|, i requires 0 <= i < |s| => LowerChar(s[i]))
  }

  /** A string without upper-case letters is its own lower-case form. */
  lemma LowerOfLowerCase(s: string)
    requires forall i :: 0 <= i < |s| ==> !('A' <= s[i] <= 'Z')
    ensures Lower(s) == s
  {
  }

  /** Lowering a word with one leading capital lowers just that letter. */
  lemma LowerOfCapitalised(first: char, rest: string)
    requires forall i :: 0 <= i < |rest| ==> !('A' <= rest[i] <= 'Z')
    ensures Lower([first] + rest) == [LowerChar(first)] + rest
  {
    LowerOfLowerCase(rest);
    assert Lower([first] + rest) == [LowerChar(first)] + Lower(rest);
  }

  /** String.prototype.toUpperCase / str.upper. */
  function Upper(s: string): (r: string)
    ensures |r| == |s|
    ensures forall i :: 0 <= i < |s| ==> r[i] == UpperChar(s[i])
  {
    seq(|s|, i requires 0 <= i < |s| => UpperChar(s[i]))
  }

  /** `needle` occurs in `hay` starting at position i. */
  predicate OccursAt(hay: string, needle: string, i: int) {
    0 <= i && i + |needle| <= |hay| && hay[i..i + |needle|] == needle
  }

  /** String.prototype.includes / Python's `in` on strings. */
  predicate Contains(hay: string, needle: string) {
    exists i :: 0 <= i <= |hay| && OccursAt(hay, needle, i)
  }

  lemma EmptyContained(hay: string)
    ensures Contains(hay, "")
  {
    assert OccursAt(hay, "", 0);
  }

  /** A needle whose first character is absent from `hay` does not occur in it. */
  lemma AbsentFirstChar(hay: string, needle: string)
    requires needle != [] && needle[0] !in hay
    ensures !Contains(hay, needle)
  {
  }

  /** str.endswith for one character. */
  predicate EndsWith(s: string, c: char) {
    |s| > 0 && s[|s| - 1] == c
  }

  /** Array.prototype.join over strings. */
  function Join(sep: string, parts: seq<string>): (r: string)
    decreases |parts|
  {
    if |parts| == 0 then ""
    else if |parts| == 1 then parts[0]
    else Join(sep, parts[..|parts| - 1]) + sep + parts[|parts| - 1]
  }

  /** Number of occurrences of character c in s. */
  function CountChar(s: string, c: char): nat {
    if |s| == 0 then 0
    else CountChar(s[..|s| - 1], c) + (if s[|s| - 1] == c then 1 else 0)
  }

  lemma CountCharAppend(a: string, b: string, c: char)
    ensures CountChar(a + b, c) == CountChar(a, c) + CountChar(b, c)
    decreases |b|
  {
    if |b| == 0 {
      assert a + b == a;
    } else {
      assert (a + b)[..|a + b| - 1] == a + b[..|b| - 1];
      CountCharAppend(a, b[..|b| - 1], c);
    }
  }

  /**
   * Joining parts none of which contains the separator character puts
   * exactly one separator between consecutive parts.
   */
  lemma {:induction false} JoinCountsSeparators(c: char, parts: seq<string>)
    requires |parts| > 0
    requires forall i :: 0 <= i < |parts| ==> CountChar(parts[i], c) == 0
    ensures CountChar(Join([c], parts), c) == |parts| - 1
    decreases |parts|
  {
    if |parts| > 1 {
      var init := parts[..|parts| - 1];
      JoinCountsSeparators(c, init);
      CountCharAppend(Join([c], init), [c], c);
      CountCharAppend(Join([c], init) + [c], parts[|parts| - 1], c);
      assert CountChar([c], c) == 1 by {
        assert [c][..0] == [];
      }
    }
  }

  /** A join whose separator and parts all lack c lacks c too. */
  lemma {:induction false} JoinWithoutChar(c: char, sep: string, parts: seq<string>)
    requires CountChar(sep, c) == 0
    requires forall i :: 0 <= i < |parts| ==> CountChar(parts[i], c) == 0
    ensures CountChar(Join(sep, parts), c) == 0
    decreases |parts|
  {
    if |parts| > 1 {
      var init := parts[..|parts| - 1];
      JoinWithoutChar(c, sep, init);
      CountCharAppend(Join(sep, init), sep, c);
      CountCharAppend(Join(sep, init) + sep, parts[|parts| - 1], c);
    }
  }

  /** String.prototype.split / str.split with a one-character separator: empty parts are kept. */
  function Split(s: string, c: char): (r: seq<string>)
    ensures |r| >= 1
    ensures forall i :: 0 <= i < |r| ==> c !in r[i]
    decreases |s|
  {
    if s == [] then [""]
    else
      var init := Split(s[..|s| - 1], c);
      var last := s[|s| - 1];
      if last == c then init + [""]
      else init[..|init| - 1] + [init[|init| - 1] + [last]]
  }

  /** Joining the parts of a split with the separator gives back the string. */
  lemma {:induction false} JoinSplit(s: string, c: char)
    ensures Join([c], Split(s, c)) == s
    decreases |s|
  {
    if s != [] {
      var prefix, last := s[..|s| - 1], s[|s| - 1];
      var init := Split(prefix, c);
      JoinSplit(prefix, c);
      assert prefix + [last] == s;
      if last == c {
        assert Split(s, c) == init + [""];
        assert (init + [""])[..|init|] == init;
        assert Join([c], init + [""]) == Join([c], init) + [c] + "";
      } else {
        assert Split(s, c) == init[..|init| - 1] + [init[|init| - 1] + [last]];
        JoinExtendsLast([c], init, [last]);
      }
    }
  }

  /** Extending the last part extends the join by the same characters. */
  lemma JoinExtendsLast(sep: string, parts: seq<string>, x: string)
    requires |parts| >= 1
    ensures Join(sep, parts[..|parts| - 1] + [parts[|parts| - 1] + x]) == Join(sep, parts) + x
  {
    var k := |parts|;
    var longer := parts[..k - 1] + [parts[k - 1] + x];
    if k == 1 {
      assert longer == [parts[0] + x];
    } else {
      assert longer[..k - 1] == parts[..k - 1] && longer[k - 1] == parts[k - 1] + x;
      assert Join(sep, longer) == Join(sep, parts[..k - 1]) + sep + (parts[k - 1] + x);
    }
  }

  /** Appending a separator and a part without it adds exactly that part to the split. */
  lemma {:induction false} SplitAppend(x: string, c: char, p: string)
    requires c !in p
    ensures Split(x + [c] + p, c) == Split(x, c) + [p]
    decreases |p|
  {
    if p == [] {
      var s := x + [c];
      assert x + [c] + p == s;
      assert s[..|s| - 1] == x && s[|s| - 1] == c;
    } else {
      var q, last := p[..|p| - 1], p[|p| - 1];
      SplitAppend(x, c, q);
      assert x + [c] + p == (x + [c] + q) + [last] && q + [last] == p;
      SplitLast(x + [c] + q, last, c);
      var init := Split(x + [c] + q, c);
      assert init[..|init| - 1] == Split(x, c) && init[|init| - 1] == q;
    }
  }

  /** A character other than the separator extends the last part. */
  lemma SplitLast(t: string, last: char, c: char)
    requires last != c
    ensures var init := Split(t, c); Split(t + [last], c) == init[..|init| - 1] + [init[|init| - 1] + [last]]
  {
    assert (t + [last])[..|t|] == t;
  }

  /** Splitting a join of separator-free parts gives back the parts. */
  lemma {:induction false} SplitJoin(parts: seq<string>, c: char)
    requires |parts| >= 1
    requires forall i :: 0 <= i < |parts| ==> c !in parts[i]
    ensures Split(Join([c], parts), c) == parts
    decreases |parts|
  {
    if |parts| == 1 {
      SplitPlain(parts[0], c);
    } else {
      var init := parts[..|parts| - 1];
      SplitJoin(init, c);
      SplitAppend(Join([c], init), c, parts[|parts| - 1]);
      InitAndLast(parts);
    }
  }

  /** A non-empty sequence is its prefix followed by its last element. */
  lemma InitAndLast<T>(s: seq<T>)
    requires s != []
    ensures s[..|s| - 1] + [s[|s| - 1]] == s
  {
  }

  /** A string without the separator splits into itself. */
  lemma {:induction false} SplitPlain(p: string, c: char)
    requires c !in p
    ensures Split(p, c) == [p]
    decreases |p|
  {
    if p != [] {
      var q := p[..|p| - 1];
      SplitPlain(q, c);
      assert q + [p[|p| - 1]] == p;
    }
  }
}
