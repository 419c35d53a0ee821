/** The file handling of audio.py: the name of the extracted .mp3 is derived
    from the input path segment by segment, and the decoded sample array is
    split into its two stereo channels by taking every other sample. */
module AudioPath {
  import opened Common
  import opened Text

  /** lts: the strings of a list concatenated in order. */
  method Lts(l: seq<string>) returns (s: string)
    ensures s == Concat(l)
  {
    s := "";
    for i := 0 to |l|
      invariant s == Concat(l[..i])
    {
      assert l[..i + 1][..i] == l[..i];
      s := s + l[i];
    }
    assert l[..|l|] == l;
  }

  /** The list comprehension over the split path: the non-empty segments, each
      with the separator put back after it. */
  function Kept(parts: seq<string>): (r: seq<string>)
    ensures |r| <= |parts|
    ensures forall k :: 0 <= k < |r| ==> |r[k]| >= 2 && r[k][|r[k]| - 1] == '/'
    decreases |parts|
  {
    if |parts| == 0 then []
    else (if parts[0] == "" then [] else [parts[0] + "/"]) + Kept(parts[1..])
  }

  lemma {:induction false} KeptAppend(x: seq<string>, y: seq<string>)
    ensures Kept(x + y) == Kept(x) + Kept(y)
    decreases |x|
  {
    if |x| == 0 {
      assert x + y == y;
    } else {
      assert (x + y)[1..] == x[1..] + y;
      KeptAppend(x[1..], y);
    }
  }

  lemma KeptOfEmpty()
    ensures Split("", '/') == [""] && Kept([""]) == []
  {
    assert [""][1..] == [];
  }

  /** Nothing is kept exactly when every segment is empty. */
  lemma {:induction false} KeptEmpty(parts: seq<string>)
    ensures Kept(parts) == [] <==> forall k :: 0 <= k < |parts| ==> parts[k] == ""
    decreases |parts|
  {
    if |parts| > 0 {
      KeptEmpty(parts[1..]);
      if parts[0] == "" {
        forall k | 0 < k < |parts| ensures parts[k] == parts[1..][k - 1] { }
      }
    }
  }

  /** Splitting undoes joining when no piece holds the separator. */
  lemma {:induction false} SplitJoin(parts: seq<string>, d: char)
    requires |parts| >= 1
    requires forall k :: 0 <= k < |parts| ==> d !in parts[k]
    ensures Split(Join(parts, d), d) == parts
    decreases |parts|
  {
    SplitWithout(parts[0], d);
    if |parts| > 1 {
      SplitJoin(parts[1..], d);
      SplitConcat(parts[0], d, Join(parts[1..], d));
      assert [parts[0]] + parts[1..] == parts;
    }
  }

  /** Every piece of the split is empty exactly when the text is all separators. */
  lemma {:induction false} SplitAllEmpty(s: string, d: char)
    ensures (forall k :: 0 <= k < |Split(s, d)| ==> Split(s, d)[k] == "")
            <==> (forall i :: 0 <= i < |s| ==> s[i] == d)
    decreases |s|
  {
    if |s| > 0 {
      SplitAllEmpty(s[1..], d);
      var rest := Split(s[1..], d);
      if s[0] == d {
        var r := Split(s, d);
        assert r == [""] + rest;
        assert (forall k :: 0 <= k < |r| ==> r[k] == "") <==> (forall k :: 0 <= k < |rest| ==> rest[k] == "") by {
          assert forall k :: 0 <= k < |rest| ==> rest[k] == r[k + 1];
        }
        assert (forall i :: 0 <= i < |s| ==> s[i] == d) <==> (forall i :: 0 <= i < |s[1..]| ==> s[1..][i] == d) by {
          assert forall i :: 0 <= i < |s[1..]| ==> s[1..][i] == s[i + 1];
        }
      } else {
        assert Split(s, d)[0] == [s[0]] + rest[0];
      }
    }
  }

  /** s.replace('/', '') on a kept segment gives the segment back. */
  lemma {:induction false} RemoveTrailingSlash(e: string)
    requires '/' !in e
    ensures RemoveChar(e + "/", '/') == e
    decreases |e|
  {
    if |e| > 0 {
      assert (e + "/")[1..] == e[1..] + "/";
      assert '/' !in e[1..] by {
        forall k | 0 <= k < |e[1..]| ensures e[1..][k] != '/' {
          assert e[1..][k] == e[k + 1];
        }
      }
      RemoveTrailingSlash(e[1..]);
      assert [e[0]] + e[1..] == e;
    } else {
      assert e + "/" == "/";
    }
  }

  /** The path from the kept segments: the last one loses its slashes and its
      extension; an empty list is the IndexError of s[-1]. */
  function FromKept(kept: seq<string>): (r: Option<string>)
    ensures r.None? <==> |kept| == 0
    ensures r.Some? ==>
              var name := Stem(RemoveChar(kept[|kept| - 1], '/'));
              r.value == Concat(kept[..|kept| - 1]) + name && '/' !in name && '.' !in name
  {
    if |kept| == 0 then None
    else
      var last := Stem(RemoveChar(kept[|kept| - 1], '/'));
      ConcatAppend(kept[..|kept| - 1], [last]);
      assert Concat([last]) == Concat([]) + last;
      assert '/' !in last by {
        var full := RemoveChar(kept[|kept| - 1], '/');
        assert forall k :: 0 <= k < |last| ==> last[k] == full[k];
      }
      Some(Concat(kept[..|kept| - 1] + [last]))
  }

  /** The path Audio.__init__ builds from its file path; the constructor fails
      exactly on a path made of slashes only (the empty path included). */
  function DerivedPath(filepath: string): (r: Option<string>)
    ensures r.None? <==> forall i :: 0 <= i < |filepath| ==> filepath[i] == '/'
  {
    KeptOfSlashes(filepath);
    FromKept(Kept(Split(filepath, '/')))
  }

  /** No segment is kept exactly when the path is slashes only. */
  lemma {:induction false} KeptOfSlashes(filepath: string)
    ensures |Kept(Split(filepath, '/'))| == 0 <==> forall i :: 0 <= i < |filepath| ==> filepath[i] == '/'
  {
    var parts := Split(filepath, '/');
    KeptEmpty(parts);
    SplitAllEmpty(filepath, '/');
    if |Kept(parts)| == 0 {
      assert Kept(parts) == [];
      assert forall k :: 0 <= k < |parts| ==> parts[k] == "";
    } else {
      assert Kept(parts) != [];
      assert exists k :: 0 <= k < |parts| && parts[k] != "";
    }
  }

  /** The name ffmpeg is told to write and from_mp3 reads back: the derived
      path with the .mp3 extension, whenever there is one. */
  function Mp3Name(filepath: string): (r: Option<string>)
    ensures r.Some? <==> DerivedPath(filepath).Some?
    ensures r.Some? ==> EndsWith(r.value, ".mp3") && r.value[..|r.value| - 4] == DerivedPath(filepath).value
  {
    match DerivedPath(filepath)
    case None => None
    case Some(path) => Some(path + ".mp3")
  }

  /** A leading slash is dropped: an absolute path gives a relative name. */
  lemma {:induction false} LeadingSlashDropped(filepath: string)
    ensures DerivedPath("/" + filepath) == DerivedPath(filepath)
  {
    assert "/" + filepath == "" + ['/'] + filepath;
    SplitConcat("", '/', filepath);
    KeptAppend([""], Split(filepath, '/'));
    KeptOfEmpty();
    assert [""] + Split(filepath, '/') == Split("/" + filepath, '/');
    assert [] + Kept(Split(filepath, '/')) == Kept(Split(filepath, '/'));
  }

  /** A trailing slash is ignored. */
  lemma {:induction false} TrailingSlashIgnored(filepath: string)
    ensures DerivedPath(filepath + "/") == DerivedPath(filepath)
  {
    assert filepath + "/" == filepath + ['/'] + "";
    SplitConcat(filepath, '/', "");
    KeptAppend(Split(filepath, '/'), [""]);
    KeptOfEmpty();
    assert Split(filepath, '/') + [""] == Split(filepath + "/", '/');
    assert Kept(Split(filepath, '/')) + [] == Kept(Split(filepath, '/'));
  }

  /** A doubled slash counts as one. */
  lemma {:induction false} DoubledSlashCollapses(x: string, y: string)
    ensures DerivedPath(x + "//" + y) == DerivedPath(x + "/" + y)
  {
    assert x + "//" + y == x + ['/'] + ("" + ['/'] + y);
    assert x + "/" + y == x + ['/'] + y;
    SplitConcat(x, '/', "" + ['/'] + y);
    SplitConcat("", '/', y);
    SplitConcat(x, '/', y);
    assert "" + ['/'] + y == "/" + y;
    assert Split(x, '/') + ([""] + Split(y, '/')) == Split(x, '/') + [""] + Split(y, '/');
    KeptAppend(Split(x, '/') + [""], Split(y, '/'));
    KeptAppend(Split(x, '/'), [""]);
    KeptAppend(Split(x, '/'), Split(y, '/'));
    KeptOfEmpty();
    assert Kept(Split(x, '/')) + [] == Kept(Split(x, '/'));
  }

  /** Each segment with the separator after it. */
  function Slashed(parts: seq<string>): (r: seq<string>)
    ensures |r| == |parts|
    ensures forall k :: 0 <= k < |r| ==> r[k] == parts[k] + "/"
  {
    seq(|parts|, k requires 0 <= k < |parts| => parts[k] + "/")
  }

  lemma {:induction false} KeptNonEmpty(parts: seq<string>)
    requires forall k :: 0 <= k < |parts| ==> parts[k] != ""
    ensures Kept(parts) == Slashed(parts)
    decreases |parts|
  {
    if |parts| > 0 {
      assert forall k :: 0 <= k < |parts[1..]| ==> parts[1..][k] == parts[k + 1];
      KeptNonEmpty(parts[1..]);
    }
  }

  /** Concatenating the slashed directories and a last name is joining them by "/". */
  lemma {:induction false} ConcatSlashed(dirs: seq<string>, name: string)
    ensures Concat(Slashed(dirs) + [name]) == Join(dirs + [name], '/')
    decreases |dirs|
  {
    if |dirs| == 0 {
      assert Slashed(dirs) + [name] == [name];
      assert Concat([name]) == Concat([]) + name;
    } else {
      ConcatSlashed(dirs[1..], name);
      assert Slashed(dirs) + [name] == [dirs[0] + "/"] + (Slashed(dirs[1..]) + [name]);
      ConcatAppend([dirs[0] + "/"], Slashed(dirs[1..]) + [name]);
      assert Concat([dirs[0] + "/"]) == Concat([]) + (dirs[0] + "/");
      assert (dirs + [name])[1..] == dirs[1..] + [name];
      assert (dirs + [name])[0] == dirs[0];
    }
  }

  /** For a path written as non-empty segments joined by "/", the name keeps every
      directory segment and only the last segment loses its extension. */
  lemma {:induction false} DerivedPathOfSegments(dirs: seq<string>, file: string)
    requires forall k :: 0 <= k < |dirs| ==> dirs[k] != "" && '/' !in dirs[k]
    requires file != "" && '/' !in file
    ensures DerivedPath(Join(dirs + [file], '/')) == Some(Join(dirs + [Stem(file)], '/'))
    ensures Mp3Name(Join(dirs + [file], '/')) == Some(Join(dirs + [Stem(file)], '/') + ".mp3")
  {
    var parts := dirs + [file];
    assert forall k :: 0 <= k < |parts| ==> parts[k] != "" && '/' !in parts[k] by {
      forall k | 0 <= k < |parts| ensures parts[k] != "" && '/' !in parts[k] {
        if k < |dirs| { assert parts[k] == dirs[k]; } else { assert parts[k] == file; }
      }
    }
    SplitJoin(parts, '/');
    KeptNonEmpty(parts);
    var kept := Slashed(parts);
    assert kept[..|kept| - 1] == Slashed(dirs);
    RemoveTrailingSlash(file);
    ConcatSlashed(dirs, Stem(file));
  }

  /** array[0:][::2]: the samples at even positions (the first channel). */
  function Evens(s: seq<int>): (r: seq<int>)
    ensures |r| == (|s| + 1) / 2
    ensures forall k :: 0 <= k < |r| ==> r[k] == s[2 * k]
    decreases |s|
  {
    if |s| <= 1 then s else [s[0]] + Evens(s[2..])
  }

  /** array[1:][::2]: the samples at odd positions (the second channel). */
  function Odds(s: seq<int>): (r: seq<int>)
    ensures |r| == |s| / 2
    ensures forall k :: 0 <= k < |r| ==> r[k] == s[2 * k + 1]
    decreases |s|
  {
    if |s| <= 1 then [] else [s[1]] + Odds(s[2..])
  }

  /** np.array([a, b]): a two-row array when the channels have equal length; an
      odd sample count gives rows of different length, which numpy refuses. */
  function Channels(samples: seq<int>): (r: Option<(seq<int>, seq<int>)>)
    ensures r.None? <==> |samples| % 2 == 1
    ensures r.Some? ==> |r.value.0| == |r.value.1| == |samples| / 2
  {
    if |samples| % 2 == 0 then Some((Evens(samples), Odds(samples))) else None
  }

  /** Two equal-length channels put back sample by sample. */
  function Interleave(a: seq<int>, b: seq<int>): (r: seq<int>)
    requires |a| == |b|
    ensures |r| == 2 * |a|
    ensures forall k :: 0 <= k < |a| ==> r[2 * k] == a[k] && r[2 * k + 1] == b[k]
    decreases |a|
  {
    if |a| == 0 then [] else [a[0], b[0]] + Interleave(a[1..], b[1..])
  }

  /** The split loses no sample: the channels of an even-length array
      interleave back to it, and only odd lengths fail. */
  lemma {:induction false} ChannelsRoundTrip(samples: seq<int>)
    ensures Channels(samples).None? <==> |samples| % 2 == 1
    ensures Channels(samples).Some? ==>
              Interleave(Channels(samples).value.0, Channels(samples).value.1) == samples
  {
    if |samples| % 2 == 0 {
      var a, b := Evens(samples), Odds(samples);
      var r := Interleave(a, b);
      assert |r| == |samples|;
      forall i | 0 <= i < |samples| ensures r[i] == samples[i] {
        var k := i / 2;
        if i % 2 == 0 {
          assert i == 2 * k && k < |a|;
          assert r[2 * k] == a[k] == samples[2 * k];
        } else {
          assert i == 2 * k + 1 && k < |b|;
          assert r[2 * k + 1] == b[k] == samples[2 * k + 1];
        }
      }
    }
  }
}
