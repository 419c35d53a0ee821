/** What the players make of ffprobe's text output: Python's int() on a line,
    the frame-rate numerator and its milli-unit normalisation, the frame size in
    bytes, and the line parser of the buffered player. */
module Probe {
  import opened Common
  import opened Text

  /** The characters Python's str.isspace() accepts, which str.strip() and
      int() remove: the ASCII controls 9-13 and 28-31, the space, and the
      Unicode separators up to U+3000. */
  predicate IsSpace(c: char)
  {
    var n := c as int;
    || 9 <= n <= 13 || 28 <= n <= 32 || n == 0x85 || n == 0xA0 || n == 0x1680
    || 0x2000 <= n <= 0x200A || n == 0x2028 || n == 0x2029 || n == 0x202F
    || n == 0x205F || n == 0x3000
  }

  /** str.lstrip(): the longest suffix of s that does not start with white
      space (StripLeftRemovesSpace: everything removed is white space). */
  function StripLeft(s: string): (r: string)
    ensures |r| <= |s| && r == s[|s| - |r|..]
    ensures |r| > 0 ==> !IsSpace(r[0])
    decreases |s|
  {
    if |s| > 0 && IsSpace(s[0]) then StripLeft(s[1..]) else s
  }

  /** str.rstrip(): the longest prefix of s that does not end with white
      space (StripRightRemovesSpace: everything removed is white space). */
  function StripRight(s: string): (r: string)
    ensures |r| <= |s| && r == s[..|r|]
    ensures |r| > 0 ==> !IsSpace(r[|r| - 1])
    decreases |s|
  {
    if |s| > 0 && IsSpace(s[|s| - 1]) then StripRight(s[..|s| - 1]) else s
  }

  /** lstrip removes white space and nothing else. */
  lemma {:induction false} StripLeftRemovesSpace(s: string)
    ensures forall i :: 0 <= i < |s| - |StripLeft(s)| ==> IsSpace(s[i])
    decreases |s|
  {
    if |s| > 0 && IsSpace(s[0]) {
      StripLeftRemovesSpace(s[1..]);
      assert forall i :: 1 <= i < |s| ==> s[i] == s[1..][i - 1];
    }
  }

  /** rstrip removes white space and nothing else. */
  lemma {:induction false} StripRightRemovesSpace(s: string)
    ensures forall i :: |StripRight(s)| <= i < |s| ==> IsSpace(s[i])
    decreases |s|
  {
    if |s| > 0 && IsSpace(s[|s| - 1]) {
      StripRightRemovesSpace(s[..|s| - 1]);
      assert forall i :: 0 <= i < |s| - 1 ==> s[i] == s[..|s| - 1][i];
    }
  }

  /** Leading white space makes no difference to lstrip. */
  lemma {:induction false} StripLeftSpaces(w: string, t: string)
    requires forall i :: 0 <= i < |w| ==> IsSpace(w[i])
    ensures StripLeft(w + t) == StripLeft(t)
    decreases |w|
  {
    if |w| == 0 {
      assert w + t == t;
    } else {
      assert (w + t)[0] == w[0] && (w + t)[1..] == w[1..] + t;
      StripLeftSpaces(w[1..], t);
    }
  }

  /** Trailing white space makes no difference to rstrip. */
  lemma {:induction false} StripRightSpaces(t: string, w: string)
    requires forall i :: 0 <= i < |w| ==> IsSpace(w[i])
    ensures StripRight(t + w) == StripRight(t)
    decreases |w|
  {
    if |w| == 0 {
      assert t + w == t;
    } else {
      assert (t + w)[|t + w| - 1] == w[|w| - 1] && (t + w)[..|t + w| - 1] == t + w[..|w| - 1];
      StripRightSpaces(t, w[..|w| - 1]);
    }
  }

  /** str.strip(). */
  function Strip(s: string): (r: string)
    ensures var k := |s| - |StripLeft(s)|; k + |r| <= |s| && r == s[k..k + |r|]
    ensures |r| > 0 ==> !IsSpace(r[0]) && !IsSpace(r[|r| - 1])
  {
    StripRight(StripLeft(s))
  }

  predicate IsDigit(c: char) { '0' <= c <= '9' }

  /** The digits of a Python integer literal: digits, with single underscores
      allowed between two digits. */
  predicate DigitGroups(d: string)
  {
    |d| > 0 && IsDigit(d[0]) && GroupsTail(d[1..])
  }

  /** What may follow a digit: more digits, each possibly preceded by one underscore. */
  predicate GroupsTail(r: string)
    decreases |r|
  {
    || |r| == 0
    || (IsDigit(r[0]) && GroupsTail(r[1..]))
    || (|r| > 1 && r[0] == '_' && IsDigit(r[1]) && GroupsTail(r[2..]))
  }

  lemma {:induction false} DigitsAreGroups(r: string)
    requires forall i :: 0 <= i < |r| ==> IsDigit(r[i])
    ensures GroupsTail(r)
    decreases |r|
  {
    if |r| > 0 {
      DigitsAreGroups(r[1..]);
    }
  }

  function DigitsValue(d: string): nat
  {
    if |d| == 0 then 0
    else if d[|d| - 1] == '_' then DigitsValue(d[..|d| - 1])
    else 10 * DigitsValue(d[..|d| - 1]) + (if IsDigit(d[|d| - 1]) then (d[|d| - 1] as int - '0' as int) else 0)
  }

  /** Python's int(s) on a str: None where int() raises ValueError. */
  function ParseInt(s: string): (r: Option<int>)
    ensures r.Some? ==> |Strip(s)| > 0
  {
    var t := Strip(s);
    if |t| > 0 && (t[0] == '+' || t[0] == '-') then
      var v: int := DigitsValue(t[1..]);
      if DigitGroups(t[1..]) then Some(if t[0] == '-' then -v else v) else None
    else if DigitGroups(t) then Some(DigitsValue(t))
    else None
  }

  function DigitChar(n: nat): char
    requires n < 10
  {
    ('0' as int + n) as char
  }

  function ShowNat(n: nat): (r: string)
    ensures |r| > 0
    decreases n
  {
    if n < 10 then [DigitChar(n)] else ShowNat(n / 10) + [DigitChar(n % 10)]
  }

  /** Python's str(n) for an int. */
  function ShowInt(n: int): string
  {
    if n < 0 then "-" + ShowNat(-n) else ShowNat(n)
  }

  lemma {:induction false} ShowNatDigits(n: nat)
    ensures forall i :: 0 <= i < |ShowNat(n)| ==> IsDigit(ShowNat(n)[i])
    ensures DigitsValue(ShowNat(n)) == n
    decreases n
  {
    if n >= 10 {
      ShowNatDigits(n / 10);
      var s := ShowNat(n);
      assert s[..|s| - 1] == ShowNat(n / 10);
    }
  }

  lemma {:induction false} NoSpaceUnchanged(s: string)
    requires |s| > 0 && !IsSpace(s[0]) && !IsSpace(s[|s| - 1])
    ensures Strip(s) == s
  {
  }

  /** Every character of an accepted digit tail is a digit or an underscore. */
  lemma {:induction false} GroupsChars(r: string)
    requires GroupsTail(r)
    ensures forall i :: 0 <= i < |r| ==> IsDigit(r[i]) || r[i] == '_'
    decreases |r|
  {
    if |r| > 0 {
      if IsDigit(r[0]) && GroupsTail(r[1..]) {
        GroupsChars(r[1..]);
        assert forall i :: 1 <= i < |r| ==> r[i] == r[1..][i - 1];
      } else {
        GroupsChars(r[2..]);
        assert forall i :: 2 <= i < |r| ==> r[i] == r[2..][i - 2];
      }
    }
  }

  /** int() rejects any text whose stripped form holds a character other than
      a digit, an underscore, or a sign in front. */
  lemma {:induction false} ParseIntCharacters(s: string)
    requires ParseInt(s).Some?
    ensures var t := Strip(s);
            |t| > 0 && forall i :: 0 <= i < |t| ==> IsDigit(t[i]) || t[i] == '_' || (i == 0 && (t[i] == '+' || t[i] == '-'))
  {
    var t := Strip(s);
    if t[0] == '+' || t[0] == '-' {
      GroupsChars(t[2..]);
      assert forall i :: 2 <= i < |t| ==> t[i] == t[2..][i - 2];
    } else {
      GroupsChars(t[1..]);
      assert forall i :: 1 <= i < |t| ==> t[i] == t[1..][i - 1];
    }
  }

  /** int(str(n)) == n for every integer. */
  lemma {:induction false} ParseShowInt(n: int)
    ensures ParseInt(ShowInt(n)) == Some(n)
  {
    var m: nat := if n < 0 then -n else n;
    ShowNatDigits(m);
    var d := ShowNat(m);
    assert IsDigit(d[0]) && IsDigit(d[|d| - 1]);
    DigitsAreGroups(d[1..]);
    assert DigitGroups(d);
    var s := ShowInt(n);
    if n < 0 {
      assert s == "-" + d && s[1..] == d && s[0] == '-' && s[|s| - 1] == d[|d| - 1];
    } else {
      assert s == d;
    }
    NoSpaceUnchanged(s);
    assert Strip(s) == s;
  }

  /** str(n) neither starts nor ends with white space. */
  lemma {:induction false} ShowIntEnds(n: int)
    ensures |ShowInt(n)| > 0 && !IsSpace(ShowInt(n)[0]) && !IsSpace(ShowInt(n)[|ShowInt(n)| - 1])
  {
    var x := ShowInt(n);
    var m: nat := if n < 0 then -n else n;
    ShowNatDigits(m);
    var d := ShowNat(m);
    assert IsDigit(d[0]) && IsDigit(d[|d| - 1]);
    if n < 0 {
      assert x == "-" + d && x[0] == '-' && x[|x| - 1] == d[|d| - 1];
    } else {
      assert x == d;
    }
  }

  /** int() sees only the stripped text. */
  lemma {:induction false} ParseIntOfStripped(a: string, b: string)
    requires Strip(a) == Strip(b)
    ensures ParseInt(a) == ParseInt(b)
  {
  }

  /** The text ffprobe prints for an integer, surrounded by any white space
      ("1080\r" on a CRLF stream), parses back to that integer. */
  lemma {:induction false} ParseIntPadded(w1: string, n: int, w2: string)
    requires forall i :: 0 <= i < |w1| ==> IsSpace(w1[i])
    requires forall i :: 0 <= i < |w2| ==> IsSpace(w2[i])
    ensures ParseInt(w1 + ShowInt(n) + w2) == Some(n)
  {
    var x := ShowInt(n);
    ShowIntEnds(n);
    assert w1 + x + w2 == w1 + (x + w2);
    StripLeftSpaces(w1, x + w2);
    assert (x + w2)[0] == x[0];
    assert StripLeft(x + w2) == x + w2;
    StripRightSpaces(x, w2);
    assert StripRight(x) == x && StripLeft(x) == x;
    assert Strip(w1 + x + w2) == Strip(x);
    ParseIntOfStripped(w1 + x + w2, x);
    ParseShowInt(n);
  }

  /** _get_video_fps: ffprobe emits r_frame_rate as "num/den"; only the numerator is
      read, and a numerator above 1000 is taken to be in milli-frames. */
  function NormaliseFps(numerator: int): (fps: real)
    ensures numerator > 1000 ==> fps * 1000.0 == numerator as real && 1.0 < fps < numerator as real
    ensures numerator <= 1000 ==> fps == numerator as real
    ensures (fps > 0.0) == (numerator > 0)
  {
    if numerator > 1000 then numerator as real / 1000.0 else numerator as real
  }

  /** The numerator as read from the probe's output line; None where int() raises. */
  function FpsNumerator(output: string): (r: Option<int>)
    ensures var head := Split(output, '/')[0];
            && |head| <= |output| && head == output[..|head|] && '/' !in head
            && (|head| == |output| || output[|head|] == '/')
            && r == ParseInt(head)
  {
    SplitHead(output, '/');
    ParseInt(Split(output, '/')[0])
  }

  lemma {:induction false} SplitHeadBeforeSeparator(a: string, rest: string, d: char)
    requires d !in a
    ensures Split(a + [d] + rest, d)[0] == a
    decreases |a|
  {
    if |a| > 0 {
      assert (a + [d] + rest)[1..] == a[1..] + [d] + rest;
      SplitHeadBeforeSeparator(a[1..], rest, d);
    }
  }

  /** The numerator of any "num/den" the probe prints is read back exactly. */
  lemma {:induction false} FpsNumeratorOfRatio(num: nat, den: nat)
    ensures FpsNumerator(ShowInt(num) + "/" + ShowInt(den)) == Some(num)
  {
    var a := ShowInt(num);
    ShowNatDigits(num);
    assert '/' !in a;
    assert a + "/" + ShowInt(den) == a + ['/'] + ShowInt(den);
    SplitHeadBeforeSeparator(a, ShowInt(den), '/');
    ParseShowInt(num);
  }

  /** The size in bytes of one rgb24 frame read from the pipe. */
  function FrameBufferSize(size: Size): (n: int)
    ensures size.0 >= 0 && size.1 >= 0 ==> n >= 0
    ensures n % 3 == 0
    ensures size.0 == 0 || size.1 == 0 <==> n == 0
  {
    size.0 * size.1 * 3
  }

  // ----- __parse_probe (the buffered player's ffprobe parser) -----

  /** The fields __parse_probe writes into the caller's dictionary. */
  datatype ProbeInfo = ProbeInfo(resolution: Option<Size>, fps: Option<real>, duration: Option<string>)

  /** The exceptions that escape __parse_probe: float() of a non-number, and a zero denominator. */
  datatype ProbeError = ValueError | ZeroDivisionError

  /** Lines n and n+1 both read as integers. */
  predicate IntPairAt(lines: seq<string>, n: nat)
  {
    n + 1 < |lines| && ParseInt(lines[n]).Some? && ParseInt(lines[n + 1]).Some?
  }

  function PairAt(lines: seq<string>, n: nat): Size
    requires IntPairAt(lines, n)
  {
    (ParseInt(lines[n]).value, ParseInt(lines[n + 1]).value)
  }

  /** float() on the text int() reads: the same value as a real, and
      ValueError where int() raises. */
  function ParseFloat(s: string): (r: Option<real>)
    ensures r.Some? <==> ParseInt(s).Some?
    ensures r.Some? ==> r.value == ParseInt(s).value as real && r.value.Floor as real == r.value
  {
    match ParseInt(s)
    case Some(v) => Some(v as real)
    case None => None
  }

  lemma ZeroZeroIsNotInt(s: string)
    ensures Strip(s) == "0/0" ==> ParseInt(s).None?
  {
    if Strip(s) == "0/0" {
      assert !IsDigit(Strip(s)[1]);
    }
  }

  /** What one pass of the loop body does to the dictionary. */
  datatype Effect =
    | SetResolution(size: Size)
    | SetFps(fps: real)
    | SetDuration(text: string)
    | NoEffect
    | Raise(error: ProbeError)

  /** The effect of a line, given the line after it (None for the last line,
      where output[n+1] raises IndexError). */
  function LineEffect(line: string, next: Option<string>): (e: Effect)
    ensures e.SetResolution? <==> ParseInt(line).Some? && next.Some? && ParseInt(next.value).Some?
    ensures e.SetResolution? ==> e.size == (ParseInt(line).value, ParseInt(next.value).value)
  {
    if ParseInt(line).Some? then
      if next.Some? && ParseInt(next.value).Some? then SetResolution((ParseInt(line).value, ParseInt(next.value).value))
      else NoEffect
    else if Strip(line) == "0/0" then NoEffect
    else if '/' in line then
      var parts := Split(line, '/');
      var num, den := ParseFloat(parts[0]), if |parts| > 1 then ParseFloat(parts[1]) else None;
      if num.None? || den.None? then Raise(ValueError)
      else if den.value == 0.0 then Raise(ZeroDivisionError)
      else SetFps(num.value / den.value)
    else if |line| != 0 then SetDuration(RemoveChar(line, '\r'))
    else NoEffect
  }

  /** How __parse_probe treats each kind of line. */
  lemma LineKinds(line: string, next: Option<string>)
    ensures ParseInt(line).Some? && !(next.Some? && ParseInt(next.value).Some?) ==> LineEffect(line, next) == NoEffect
    ensures Strip(line) == "0/0" || line == "" ==> LineEffect(line, next) == NoEffect
    ensures LineEffect(line, next).Raise? ==> '/' in line && ParseInt(line).None? && Strip(line) != "0/0"
    ensures LineEffect(line, next).SetFps? ==> '/' in line && ParseInt(line).None? && Strip(line) != "0/0"
    ensures LineEffect(line, next).SetDuration? ==>
              '/' !in line && ParseInt(line).None? && LineEffect(line, next).text == RemoveChar(line, '\r')
    ensures ParseInt(line).None? && Strip(line) != "0/0" && '/' !in line && line != "" ==>
              LineEffect(line, next) == SetDuration(RemoveChar(line, '\r'))
  {
    ZeroZeroIsNotInt(line);
  }

  /** str(n) holds digits and perhaps a leading minus sign, so no '/'. */
  lemma {:induction false} ShowIntNoSlash(n: int)
    ensures '/' !in ShowInt(n)
  {
    var m: nat := if n < 0 then -n else n;
    ShowNatDigits(m);
    var d := ShowNat(m);
    if n < 0 {
      assert ShowInt(n) == "-" + d;
      assert forall i :: 1 <= i < |ShowInt(n)| ==> ShowInt(n)[i] == d[i - 1];
    }
  }

  /** A non-empty run of decimal digits, as ffprobe prints a count. */
  predicate AllDigits(x: string)
  {
    |x| > 0 && forall i :: 0 <= i < |x| ==> IsDigit(x[i])
  }

  /** A run of digits has no white space at either end and no '/'. */
  lemma {:induction false} DigitsPlain(x: string)
    requires AllDigits(x)
    ensures !IsSpace(x[0]) && !IsSpace(x[|x| - 1]) && '/' !in x
  {
  }

  /** int() reads a run of digits as its decimal value. */
  lemma {:induction false} ParseDigits(x: string)
    requires AllDigits(x)
    ensures ParseInt(x) == Some(DigitsValue(x))
  {
    DigitsAreGroups(x[1..]);
    assert DigitGroups(x);
    NoSpaceUnchanged(x);
  }

  /** "num/den" has no white space to strip, and it splits on '/' into the
      two numbers' texts. */
  lemma {:induction false} RatioLineShape(x: string, y: string)
    requires AllDigits(x) && AllDigits(y)
    ensures var line := x + "/" + y;
            && |x| < |Strip(line)| && Strip(line)[|x|] == '/' && '/' in line
            && Split(line, '/') == [x, y]
  {
    var line := x + "/" + y;
    DigitsPlain(x);
    DigitsPlain(y);
    assert line[0] == x[0] && line[|line| - 1] == y[|y| - 1];
    NoSpaceUnchanged(line);
    assert line[|x|] == '/';
    SplitAround(x, y, '/');
  }

  /** int() rejects text that holds a '/' after stripping. */
  lemma {:induction false} SlashIsNotInt(s: string, k: nat)
    requires k < |Strip(s)| && Strip(s)[k] == '/'
    ensures ParseInt(s).None?
  {
    if ParseInt(s).Some? {
      ParseIntCharacters(s);
      assert false;
    }
  }

  lemma {:induction false} StripZeroZero()
    ensures Strip("0/0") == "0/0"
  {
    NoSpaceUnchanged("0/0");
  }

  lemma {:induction false} SplitZeroZero()
    ensures Split("0/0", '/') == ["0", "0"]
  {
    SplitAround("0", "0", '/');
    assert "0" + ['/'] + "0" == "0/0";
  }

  /** The only ratio the parser skips is the text 0/0. */
  lemma {:induction false} RatioLineZeroZero(x: string, y: string)
    requires AllDigits(x) && AllDigits(y)
    ensures Strip(x + "/" + y) == "0/0" <==> x == "0" && y == "0"
  {
    if Strip(x + "/" + y) == "0/0" {
      RatioLineShape(x, y);
      SplitZeroZero();
      assert [x, y] == ["0", "0"];
    }
    if x == "0" && y == "0" {
      ZeroZeroLine(x, y);
    }
  }

  lemma {:induction false} ZeroZeroLine(x: string, y: string)
    requires x == "0" && y == "0"
    ensures Strip(x + "/" + y) == "0/0"
  {
    var line := x + "/" + y;
    assert line == "0/0" by {
      assert |line| == 3 && line[0] == '0' && line[1] == '/' && line[2] == '0';
    }
    StripZeroZero();
  }

  /** A line int() rejects, other than 0/0, holding one '/': the ratio of the
      two pieces as floats, or the error float() or the division raises. */
  lemma {:induction false} RatioLineEffect(line: string, x: string, y: string, next: Option<string>)
    requires ParseInt(line).None? && Strip(line) != "0/0" && '/' in line
    requires Split(line, '/') == [x, y]
    ensures LineEffect(line, next) ==
              if ParseFloat(x).None? || ParseFloat(y).None? then Raise(ValueError)
              else if ParseFloat(y).value == 0.0 then Raise(ZeroDivisionError)
              else SetFps(ParseFloat(x).value / ParseFloat(y).value)
  {
  }

  /** A frame-rate line "num/den" as ffprobe prints it: fps = num/den, a zero
      denominator raises ZeroDivisionError, and exactly "0/0" is skipped. */
  lemma {:induction false} FpsLine(x: string, y: string, next: Option<string>)
    requires AllDigits(x) && AllDigits(y)
    ensures DigitsValue(y) != 0 ==>
              LineEffect(x + "/" + y, next) == SetFps(DigitsValue(x) as real / DigitsValue(y) as real)
    ensures DigitsValue(y) == 0 && !(x == "0" && y == "0") ==>
              LineEffect(x + "/" + y, next) == Raise(ZeroDivisionError)
    ensures x == "0" && y == "0" ==> LineEffect(x + "/" + y, next) == NoEffect
  {
    FpsLineRate(x, y, next);
    FpsLineZeroDenominator(x, y, next);
    RatioOfDigits(x, y, next);
  }

  lemma {:induction false} FpsLineRate(x: string, y: string, next: Option<string>)
    requires AllDigits(x) && AllDigits(y)
    ensures DigitsValue(y) != 0 ==>
              LineEffect(x + "/" + y, next) == SetFps(DigitsValue(x) as real / DigitsValue(y) as real)
  {
    RatioOfDigits(x, y, next);
    FloatDigits(x);
    FloatDigits(y);
  }

  lemma {:induction false} FpsLineZeroDenominator(x: string, y: string, next: Option<string>)
    requires AllDigits(x) && AllDigits(y)
    ensures DigitsValue(y) == 0 && !(x == "0" && y == "0") ==>
              LineEffect(x + "/" + y, next) == Raise(ZeroDivisionError)
  {
    RatioOfDigits(x, y, next);
    FloatDigits(x);
    FloatDigits(y);
  }

  /** float() reads a run of digits as its decimal value. */
  lemma {:induction false} FloatDigits(x: string)
    requires AllDigits(x)
    ensures ParseFloat(x) == Some(DigitsValue(x) as real)
  {
    ParseDigits(x);
  }

  lemma {:induction false} RatioOfDigits(x: string, y: string, next: Option<string>)
    requires AllDigits(x) && AllDigits(y)
    ensures LineEffect(x + "/" + y, next) ==
              if x == "0" && y == "0" then NoEffect
              else if ParseFloat(x).None? || ParseFloat(y).None? then Raise(ValueError)
              else if ParseFloat(y).value == 0.0 then Raise(ZeroDivisionError)
              else SetFps(ParseFloat(x).value / ParseFloat(y).value)
  {
    var line := x + "/" + y;
    RatioLineShape(x, y);
    SlashIsNotInt(line, |x|);
    RatioLineZeroZero(x, y);
    if !(x == "0" && y == "0") {
      RatioLineEffect(line, x, y, next);
    }
  }

  /** In particular for the decimal texts of two counts. */
  lemma {:induction false} FpsLineOfCounts(a: nat, b: nat, next: Option<string>)
    ensures b != 0 ==> LineEffect(ShowNat(a) + "/" + ShowNat(b), next) == SetFps(a as real / b as real)
  {
    ShowNatDigits(a);
    ShowNatDigits(b);
    FpsLine(ShowNat(a), ShowNat(b), next);
  }

  function NextLine(lines: seq<string>, n: nat): Option<string>
  {
    if n + 1 < |lines| then Some(lines[n + 1]) else None
  }

  /** The effect of every line, in order. */
  function Effects(lines: seq<string>): (es: seq<Effect>)
    ensures |es| == |lines|
    ensures forall n :: 0 <= n < |lines| ==> es[n] == LineEffect(lines[n], NextLine(lines, n))
    ensures forall n :: 0 <= n < |lines| ==> (es[n].SetResolution? <==> IntPairAt(lines, n))
    ensures forall n :: 0 <= n < |lines| && IntPairAt(lines, n) ==> es[n] == SetResolution(PairAt(lines, n))
  {
    seq(|lines|, n requires 0 <= n < |lines| => LineEffect(lines[n], NextLine(lines, n)))
  }

  /** One pass of the loop body: a raise escapes, any other effect sets at
      most the one key it names. */
  function Apply(info: ProbeInfo, e: Effect): (r: Result<ProbeInfo, ProbeError>)
    ensures r.Err? <==> e.Raise?
    ensures e.Raise? ==> r.error == e.error
    ensures r.Ok? ==> r.value.resolution == (if e.SetResolution? then Some(e.size) else info.resolution)
    ensures r.Ok? ==> r.value.fps == (if e.SetFps? then Some(e.fps) else info.fps)
    ensures r.Ok? ==> r.value.duration == (if e.SetDuration? then Some(e.text) else info.duration)
  {
    match e
    case SetResolution(size) => Ok(info.(resolution := Some(size)))
    case SetFps(fps) => Ok(info.(fps := Some(fps)))
    case SetDuration(text) => Ok(info.(duration := Some(text)))
    case NoEffect => Ok(info)
    case Raise(error) => Err(error)
  }

  /** The loop from effect n on: effects are applied in order until one raises. */
  function RunFrom(info: ProbeInfo, es: seq<Effect>, n: nat): (r: Result<ProbeInfo, ProbeError>)
    requires n <= |es|
    ensures r.Err? <==> exists j :: n <= j < |es| && es[j].Raise?
    ensures r.Err? ==> exists j :: n <= j < |es| && es[j] == Raise(r.error) && forall k :: n <= k < j ==> !es[k].Raise?
    decreases |es| - n
  {
    if n == |es| then Ok(info)
    else if es[n].Raise? then Apply(info, es[n])
    else RunFrom(Apply(info, es[n]).value, es, n + 1)
  }

  /** __parse_probe's outcome on the probe's lines. */
  function ParseAll(info: ProbeInfo, lines: seq<string>): (r: Result<ProbeInfo, ProbeError>)
    ensures r.Err? <==> exists j :: 0 <= j < |lines| && LineEffect(lines[j], NextLine(lines, j)).Raise?
    ensures r.Err? ==> exists j :: 0 <= j < |lines| && LineEffect(lines[j], NextLine(lines, j)) == Raise(r.error)
  {
    RunFrom(info, Effects(lines), 0)
  }

  /** __parse_probe: the dictionary after all lines, or the exception that escapes it. */
  method ParseProbe(info: ProbeInfo, lines: seq<string>) returns (r: Result<ProbeInfo, ProbeError>)
    ensures r == ParseAll(info, lines)
  {
    var acc := info;
    var n := 0;
    while n < |lines|
      invariant 0 <= n <= |lines|
      invariant RunFrom(acc, Effects(lines), n) == ParseAll(info, lines)
    {
      var next := if n + 1 < |lines| then Some(lines[n + 1]) else None;
      var step := Apply(acc, LineEffect(lines[n], next));
      if step.Err? {
        return Err(step.error);
      }
      acc := step.value;
      n := n + 1;
    }
    return Ok(acc);
  }

  lemma {:induction false} RunUntouched(info: ProbeInfo, es: seq<Effect>, n: nat)
    requires n <= |es|
    requires forall j :: n <= j < |es| ==> !es[j].SetResolution?
    requires RunFrom(info, es, n).Ok?
    ensures RunFrom(info, es, n).value.resolution == info.resolution
    decreases |es| - n
  {
    if n < |es| {
      RunUntouched(Apply(info, es[n]).value, es, n + 1);
    }
  }

  lemma {:induction false} RunLastResolution(info: ProbeInfo, es: seq<Effect>, n: nat, k: nat)
    requires n <= k < |es| && es[k].SetResolution?
    requires forall j :: k < j < |es| ==> !es[j].SetResolution?
    requires RunFrom(info, es, n).Ok?
    ensures RunFrom(info, es, n).value.resolution == Some(es[k].size)
    decreases |es| - n
  {
    var info' := Apply(info, es[n]).value;
    if n < k {
      RunLastResolution(info', es, n + 1, k);
    } else {
      RunUntouched(info', es, n + 1);
    }
  }

  /** With no two consecutive integer lines, the resolution is left as it was. */
  lemma {:induction false} ResolutionUntouched(info: ProbeInfo, lines: seq<string>)
    requires forall j :: 0 <= j < |lines| ==> !IntPairAt(lines, j)
    requires ParseAll(info, lines).Ok?
    ensures ParseAll(info, lines).value.resolution == info.resolution
  {
    var es := Effects(lines);
    forall j | 0 <= j < |es| ensures !es[j].SetResolution? {
      assert !IntPairAt(lines, j);
    }
    RunUntouched(info, es, 0);
  }

  /** Later integer pairs overwrite earlier ones: the resolution is the last pair. */
  lemma {:induction false} ResolutionIsLastPair(info: ProbeInfo, lines: seq<string>, k: nat)
    requires IntPairAt(lines, k)
    requires forall j :: k < j < |lines| ==> !IntPairAt(lines, j)
    requires ParseAll(info, lines).Ok?
    ensures ParseAll(info, lines).value.resolution == Some(PairAt(lines, k))
  {
    var es := Effects(lines);
    forall j | k < j < |es| ensures !es[j].SetResolution? {
      assert !IntPairAt(lines, j);
    }
    assert es[k] == SetResolution(PairAt(lines, k));
    RunLastResolution(info, es, 0, k);
  }

  lemma {:induction false} RunDropsNoEffect(info: ProbeInfo, es: seq<Effect>, n: nat, i: nat)
    requires i <= n < |es| && es[n] == NoEffect
    ensures RunFrom(info, es, i) == RunFrom(info, es[..n] + es[n + 1..], i)
    decreases |es| - i
  {
    var shorter := es[..n] + es[n + 1..];
    if i == n {
      RunSuffix(info, es, shorter, n + 1, n);
    } else {
      assert es[i] == shorter[i];
      match Apply(info, es[i])
      case Err(_) =>
      case Ok(info') => RunDropsNoEffect(info', es, n, i + 1);
    }
  }

  lemma {:induction false} RunSuffix(info: ProbeInfo, a: seq<Effect>, b: seq<Effect>, i: nat, j: nat)
    requires i <= |a| && j <= |b| && a[i..] == b[j..]
    ensures RunFrom(info, a, i) == RunFrom(info, b, j)
    decreases |a| - i
  {
    if i < |a| {
      assert a[i] == a[i..][0] == b[j..][0] == b[j];
      assert a[i + 1..] == a[i..][1..];
      assert b[j + 1..] == b[j..][1..];
      match Apply(info, a[i])
      case Err(_) =>
      case Ok(info') => RunSuffix(info', a, b, i + 1, j + 1);
    }
  }

  /** Only an integer line looks at the line after it. */
  lemma NextIgnored(line: string, next: Option<string>, other: Option<string>)
    requires ParseInt(line).None?
    ensures LineEffect(line, next) == LineEffect(line, other)
  {
  }

  /** Line i keeps its own text and its successor's when the deleted line n
      comes later or, being its successor, is ignored by it. */
  lemma SameLineAndNext(lines: seq<string>, shorter: seq<string>, i: nat, j: nat)
    requires i < |shorter| && j < |lines| && shorter[i] == lines[j]
    requires NextLine(shorter, i) == NextLine(lines, j) || ParseInt(lines[j]).None?
    ensures Effects(shorter)[i] == Effects(lines)[j]
  {
    if NextLine(shorter, i) != NextLine(lines, j) {
      NextIgnored(lines[j], NextLine(shorter, i), NextLine(lines, j));
    }
  }

  /** Deleting element n moves every later element down by one. */
  lemma DropAt<T>(s: seq<T>, n: nat, i: nat)
    requires n < |s| && i < |s| - 1
    ensures (s[..n] + s[n + 1..])[i] == s[if i < n then i else i + 1]
  {
  }

  /** Deleting line n moves every later line down by one; line i and its
      successor are unchanged unless line n was that successor. */
  lemma DropIndex(lines: seq<string>, n: nat, i: nat)
    requires n < |lines| && i < |lines| - 1
    ensures var shorter := lines[..n] + lines[n + 1..];
            var j := if i < n then i else i + 1;
            shorter[i] == lines[j] && (i + 1 != n ==> NextLine(shorter, i) == NextLine(lines, j))
  {
    var shorter := lines[..n] + lines[n + 1..];
    var j := if i < n then i else i + 1;
    if i + 1 != n && i + 1 < |shorter| {
      assert shorter[i + 1] == lines[j + 1];
    }
  }

  lemma EffectAfterDrop(lines: seq<string>, n: nat, i: nat)
    requires n < |lines| && i < |lines| - 1
    requires n == 0 || ParseInt(lines[n - 1]).None?
    ensures Effects(lines[..n] + lines[n + 1..])[i] == (Effects(lines)[..n] + Effects(lines)[n + 1..])[i]
  {
    var shorter := lines[..n] + lines[n + 1..];
    var es := Effects(lines);
    var j := if i < n then i else i + 1;
    DropAt(es, n, i);
    DropIndex(lines, n, i);
    SameLineAndNext(lines, shorter, i, j);
  }

  /** Deleting a line that does not follow an integer line deletes its effect and
      leaves the others as they were. */
  lemma EffectsAfterDrop(lines: seq<string>, n: nat)
    requires n < |lines|
    requires n == 0 || ParseInt(lines[n - 1]).None?
    ensures Effects(lines[..n] + lines[n + 1..]) == Effects(lines)[..n] + Effects(lines)[n + 1..]
  {
    var fs := Effects(lines[..n] + lines[n + 1..]);
    var dropped := Effects(lines)[..n] + Effects(lines)[n + 1..];
    forall i | 0 <= i < |fs| ensures fs[i] == dropped[i] {
      EffectAfterDrop(lines, n, i);
    }
  }

  /** An ignored line ("0/0" or empty) that does not follow an integer line can be
      deleted without changing what the parser produces. */
  lemma {:induction false} IgnoredLineDropped(info: ProbeInfo, lines: seq<string>, n: nat)
    requires n < |lines| && (Strip(lines[n]) == "0/0" || lines[n] == "")
    requires n == 0 || ParseInt(lines[n - 1]).None?
    ensures ParseAll(info, lines) == ParseAll(info, lines[..n] + lines[n + 1..])
  {
    LineKinds(lines[n], NextLine(lines, n));
    EffectsAfterDrop(lines, n);
    RunDropsNoEffect(info, Effects(lines), n, 0);
  }
}
