/** String helpers with Python's meaning: str.split on one character,
    str.endswith, str.replace of one character by nothing, and "".join. */
module Text {

  /** Python's s.split(d) for a one-character separator. */
  function Split(s: string, d: char): (r: seq<string>)
    ensures |r| >= 1
    ensures forall k :: 0 <= k < |r| ==> d !in r[k]
    decreases |s|
  {
    if |s| == 0 then [""]
    else
      var rest := Split(s[1..], d);
      if s[0] == d then [""] + rest else [[s[0]] + rest[0]] + rest[1..]
  }

  /** d.join(parts). */
  function Join(parts: seq<string>, d: char): string
    requires |parts| >= 1
    decreases |parts|
  {
    if |parts| == 1 then parts[0] else parts[0] + [d] + Join(parts[1..], d)
  }

  /** Splitting loses nothing: joining the pieces back gives the original text. */
  lemma {:induction false} JoinSplit(s: string, d: char)
    ensures Join(Split(s, d), d) == s
    decreases |s|
  {
    if |s| > 0 {
      JoinSplit(s[1..], d);
      var rest := Split(s[1..], d);
      if s[0] == d {
        assert Split(s, d) == [""] + rest;
        assert ([""] + rest)[1..] == rest;
      } else {
        var r := [[s[0]] + rest[0]] + rest[1..];
        assert Split(s, d) == r;
        if |rest| == 1 {
          assert Join(r, d) == [s[0]] + rest[0];
        } else {
          assert r[1..] == rest[1..];
          assert Join(rest, d) == rest[0] + [d] + Join(rest[1..], d);
          assert Join(r, d) == [s[0]] + rest[0] + [d] + Join(rest[1..], d);
        }
      }
    }
  }

  /** Splitting at a separator splits the two sides separately. */
  lemma {:induction false} SplitConcat(x: string, d: char, y: string)
    ensures Split(x + [d] + y, d) == Split(x, d) + Split(y, d)
    decreases |x|
  {
    if |x| == 0 {
      assert x + [d] + y == [d] + y;
      assert ([d] + y)[1..] == y;
    } else {
      assert (x + [d] + y)[1..] == x[1..] + [d] + y;
      assert (x + [d] + y)[0] == x[0];
      SplitConcat(x[1..], d, y);
    }
  }

  /** A text without the separator is a single piece. */
  lemma {:induction false} SplitWithout(s: string, d: char)
    requires d !in s
    ensures Split(s, d) == [s]
    decreases |s|
  {
    if |s| > 0 {
      assert d !in s[1..] by {
        forall k | 0 <= k < |s[1..]| ensures s[1..][k] != d {
          assert s[1..][k] == s[k + 1];
        }
      }
      SplitWithout(s[1..], d);
      assert [s[0]] + s[1..] == s;
    }
  }

  /** Text with exactly one separator splits into the text around it. */
  lemma {:induction false} SplitAround(a: string, b: string, d: char)
    requires d !in a && d !in b
    ensures Split(a + [d] + b, d) == [a, b]
  {
    SplitConcat(a, d, b);
    SplitWithout(a, d);
    SplitWithout(b, d);
  }

  /** The first piece of split(d) is the text before the first d, or all of it. */
  lemma {:induction false} SplitHead(s: string, d: char)
    ensures |Split(s, d)[0]| <= |s| && Split(s, d)[0] == s[..|Split(s, d)[0]|]
    ensures |Split(s, d)[0]| < |s| ==> s[|Split(s, d)[0]|] == d
    decreases |s|
  {
    if |s| > 0 {
      SplitHead(s[1..], d);
    }
  }

  /** Python's s.split(".")[0]: the text before the first ".". */
  function Stem(s: string): (r: string)
    ensures '.' !in r
    ensures |r| <= |s| && r == s[..|r|]
    ensures r == s || s[|r|] == '.'
    ensures '.' !in s ==> r == s
  {
    SplitHead(s, '.');
    Split(s, '.')[0]
  }

  predicate EndsWith(s: string, suffix: string)
  {
    |suffix| <= |s| && s[|s| - |suffix|..] == suffix
  }

  /** s.replace(c, ""): every c is removed and every other character kept, as
      often as it occurs (RemoveCharAppend: and in its order). */
  function RemoveChar(s: string, c: char): (r: string)
    ensures c !in r
    ensures c !in s ==> r == s
    ensures |r| <= |s|
    ensures multiset(r) == multiset(s)[c := 0]
  {
    if |s| == 0 then "" else
      assert s == [s[0]] + s[1..];
      (if s[0] == c then "" else [s[0]]) + RemoveChar(s[1..], c)
  }

  /** Removal works piece by piece, so the kept characters stay in order. */
  lemma {:induction false} RemoveCharAppend(a: string, b: string, c: char)
    ensures RemoveChar(a + b, c) == RemoveChar(a, c) + RemoveChar(b, c)
    decreases |a|
  {
    if |a| == 0 {
      assert a + b == b;
    } else {
      assert (a + b)[0] == a[0] && (a + b)[1..] == a[1..] + b;
      RemoveCharAppend(a[1..], b, c);
    }
  }

  /** Concatenation of a list of strings, in order (the value of lts and of "".join). */
  function Concat(l: seq<string>): string
  {
    if |l| == 0 then "" else Concat(l[..|l| - 1]) + l[|l| - 1]
  }

  lemma {:induction false} ConcatAppend(a: seq<string>, b: seq<string>)
    ensures Concat(a + b) == Concat(a) + Concat(b)
    decreases |b|
  {
    if |b| == 0 {
      assert a + b == a;
    } else {
      var b' := b[..|b| - 1];
      assert (a + b)[..|a + b| - 1] == a + b';
      ConcatAppend(a, b');
    }
  }

  /** The length of a concatenation is the sum of the lengths. */
  function TotalLength(l: seq<string>): nat
  {
    if |l| == 0 then 0 else TotalLength(l[..|l| - 1]) + |l[|l| - 1]|
  }

  lemma {:induction false} ConcatLength(l: seq<string>)
    ensures |Concat(l)| == TotalLength(l)
    decreases |l|
  {
    if |l| > 0 {
      ConcatLength(l[..|l| - 1]);
    }
  }
}
