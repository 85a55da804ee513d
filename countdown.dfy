/**
 * The spoken-number policy of the countdown: how one number becomes the list
 * of clip paths that pronounce it, how the numbers from a start value down to
 * 0 are concatenated, and how the clips missing from the file system are
 * dropped.  Everything here is pure; the loop that builds the list in place
 * lives in module Sketch and is proved equal to `Filter(Candidates(start), _)`.
 */
module Countdown {

  /** The character of a decimal digit. */
  function Digit(d: nat): (c: char)
    requires d < 10
    ensures '0' <= c <= '9' && c as int - '0' as int == d
  {
    "0123456789"[d]
  }

  /** The value of a character read as a decimal digit (0 for any other character). */
  function DigitValue(c: char): (d: nat)
    ensures d < 10
  {
    if '0' <= c <= '9' then c as int - '0' as int else 0
  }

  /** `String(n)` of a non-negative integer: its decimal digits, no leading zero. */
  function Decimal(n: nat): (s: string)
    ensures 1 <= |s|
    ensures n < 10 <==> |s| == 1
    ensures n >= 10 ==> s[0] != '0'
    ensures forall i :: 0 <= i < |s| ==> '0' <= s[i] <= '9'
    decreases n
  {
    if n < 10 then [Digit(n)] else Decimal(n / 10) + [Digit(n % 10)]
  }

  /** Reads a string of decimal digits back as a number, most significant digit first. */
  function ParseDecimal(s: string): (n: nat)
    decreases |s|
  {
    if s == [] then 0 else 10 * ParseDecimal(s[..|s| - 1]) + DigitValue(s[|s| - 1])
  }

  lemma {:induction false} ParseDecimalOfDecimal(n: nat)
    ensures ParseDecimal(Decimal(n)) == n
    decreases n
  {
    var s := Decimal(n);
    if n >= 10 {
      assert s[..|s| - 1] == Decimal(n / 10);
      ParseDecimalOfDecimal(n / 10);
    }
  }

  /** The clip that says the number `k`: `"/" + String(k) + ".wav"`. */
  function Path(k: nat): (name: string)
    ensures 6 <= |name| && name[0] == '/' && name[|name| - 4..] == ".wav"
  {
    "/" + Decimal(k) + ".wav"
  }

  /** The value a clip path names, read back from the digits between `/` and `.wav`. */
  function ValueOf(name: string): (k: nat)
  {
    if |name| >= 5 then ParseDecimal(name[1..|name| - 4]) else 0
  }

  lemma PathRoundTrip(k: nat)
    ensures ValueOf(Path(k)) == k
  {
    var name := Path(k);
    assert name[1..|name| - 4] == Decimal(k);
    ParseDecimalOfDecimal(k);
  }

  /** Different numbers are said by different clips. */
  lemma PathInjective(a: nat, b: nat)
    ensures Path(a) == Path(b) <==> a == b
  {
    if Path(a) == Path(b) {
      PathRoundTrip(a);
      PathRoundTrip(b);
    }
  }

  /** The two literal clip names of `buildCountdownList`. */
  const ZeroClip: string := "/0.wav"
  const HundredClip: string := "/100.wav"

  lemma LiteralClips()
    ensures Path(0) == ZeroClip && Path(100) == HundredClip
  {
    assert Decimal(100) == Decimal(10) + [Digit(0)];
    assert Decimal(10) == Decimal(1) + [Digit(0)];
  }

  /**
   * The names for the last two digits `r` of a number: nothing for 0, one clip
   * for 1..20 and the round tens, otherwise the tens clip then the units clip.
   */
  function RemainderNames(r: nat): (names: seq<string>)
    requires r < 100
    ensures r == 0 <==> names == []
    ensures 0 < r && (r <= 20 || r % 10 == 0) ==> names == [Path(r)]
    ensures 0 < r && !(r <= 20 || r % 10 == 0) ==> names == [Path((r / 10) * 10), Path(r % 10)]
  {
    if r == 0 then []
    else if r <= 20 || r % 10 == 0 then [Path(r)]
    else [Path((r / 10) * 10), Path(r % 10)]
  }

  /** The names for the hundreds digit `h` of a number: none, or the digit's clip then `/100.wav`. */
  function HundredsNames(h: nat): (names: seq<string>)
    ensures h == 0 <==> names == []
  {
    if h > 0 then [Path(h), HundredClip] else []
  }

  /**
   * The clips one number of the countdown contributes before the existence
   * filter.  `n / 100` and `n % 100` are the C operators, which agree with
   * Dafny's on the non-negative values the loop visits.
   */
  function NumberNames(n: nat): (names: seq<string>)
    ensures n == 0 ==> names == [ZeroClip]
    ensures n >= 100 ==> |names| >= 2 && names[..2] == [Path(n / 100), HundredClip] && names[2..] == RemainderNames(n % 100)
    ensures 0 < n < 100 ==> names == RemainderNames(n)
    ensures 1 <= |names| <= 4
  {
    if n == 0 then [ZeroClip]
    else HundredsNames(n / 100) + RemainderNames(n % 100)
  }

  // Worked decompositions: 0, 15, 47, 200, 230 and 999.

  lemma ZeroExample()
    ensures NumberNames(0) == ["/0.wav"]
  {
  }

  lemma TeenExample()
    ensures NumberNames(15) == ["/15.wav"]
  {
    assert Decimal(15) == Decimal(1) + [Digit(5)];
    assert Path(15) == "/15.wav";
  }

  lemma TensUnitsExample()
    ensures NumberNames(47) == ["/40.wav", "/7.wav"]
  {
    assert Decimal(40) == Decimal(4) + [Digit(0)];
    assert Path(40) == "/40.wav" && Path(7) == "/7.wav";
    assert NumberNames(47) == RemainderNames(47);
  }

  lemma HundredsExample()
    ensures NumberNames(200) == ["/2.wav", "/100.wav"]
    ensures NumberNames(230) == ["/2.wav", "/100.wav", "/30.wav"]
  {
    assert Decimal(30) == Decimal(3) + [Digit(0)];
    assert Path(2) == "/2.wav" && Path(30) == "/30.wav";
    assert NumberNames(200) == [Path(2), HundredClip];
    assert NumberNames(230) == [Path(2), HundredClip] + RemainderNames(30);
  }

  lemma LargestExample()
    ensures NumberNames(999) == ["/9.wav", "/100.wav", "/90.wav", "/9.wav"]
  {
    assert Decimal(90) == Decimal(9) + [Digit(0)];
    assert Path(9) == "/9.wav" && Path(90) == "/90.wav";
    assert NumberNames(999) == [Path(9), HundredClip] + RemainderNames(99);
  }

  /** Names per number that the capacity reserved for the countdown list allows. */
  const ReservedNamesPerNumber: nat := 2

  /** Names per number that a decomposition can actually produce. */
  const MaxNamesPerNumber: nat := 4

  /**
   * The reserved capacity assumes at most two names per number, but 111
   * gives three names and 999 gives four.
   */
  lemma ReservePerNumberTooSmall()
    ensures |NumberNames(111)| == 3 > ReservedNamesPerNumber
    ensures |NumberNames(999)| == MaxNamesPerNumber > ReservedNamesPerNumber
  {
    LargestExample();
    assert NumberNames(111) == [Path(1), HundredClip] + RemainderNames(11);
  }

  /** With four names per number the reserved capacity covers every list. */
  lemma ReservePerNumberCorrected(start: nat, present: set<string>)
    ensures |NumberNames(start)| <= MaxNamesPerNumber
    ensures |Filter(Candidates(start), present)| <= |Candidates(start)| <= MaxNamesPerNumber * (start + 1)
  {
    CandidatesLength(start);
  }

  /** A clip recorded on the device: 0..20, the round tens up to 90, and 100. */
  predicate IsClipValue(k: nat)
  {
    k <= 20 || (k <= 100 && k % 10 == 0)
  }

  /** Every name a number up to 999 produces is one of the 29 recorded clips. */
  lemma NamesAreClips(n: nat)
    requires n <= 999
    ensures forall i :: 0 <= i < |NumberNames(n)| ==>
      NumberNames(n)[i] == Path(ValueOf(NumberNames(n)[i])) && IsClipValue(ValueOf(NumberNames(n)[i]))
  {
    var names := NumberNames(n);
    LiteralClips();
    forall i | 0 <= i < |names|
      ensures names[i] == Path(ValueOf(names[i])) && IsClipValue(ValueOf(names[i]))
    {
      var k: nat :| names[i] == Path(k) && IsClipValue(k) by {
        if n == 0 {
          assert names[i] == Path(0);
        } else if n >= 100 && i < 2 {
          assert IsClipValue(n / 100) && IsClipValue(100);
        } else {
          var r := n % 100;
          var j := if n >= 100 then i - 2 else i;
          assert names[i] == RemainderNames(r)[j];
          assert IsClipValue(r) || (IsClipValue((r / 10) * 10) && IsClipValue(r % 10));
        }
      }
      PathRoundTrip(k);
    }
  }

  /** The sum of the values the clips name. */
  function SumOfValues(names: seq<string>): (total: nat)
  {
    if names == [] then 0 else ValueOf(names[0]) + SumOfValues(names[1..])
  }

  /**
   * How a listener hears a clip list: a second clip "100" multiplies the clip
   * before it; every other clip adds its value.
   */
  function Heard(names: seq<string>): (total: nat)
  {
    if |names| >= 2 && names[1] == HundredClip then 100 * ValueOf(names[0]) + SumOfValues(names[2..])
    else SumOfValues(names)
  }

  /** The clips for the last two digits add up to them; a second clip is never `/100.wav`. */
  lemma HeardRemainder(r: nat)
    requires r < 100
    ensures SumOfValues(RemainderNames(r)) == r
    ensures |RemainderNames(r)| >= 2 ==> RemainderNames(r)[1] != HundredClip
  {
    var rest := RemainderNames(r);
    if r > 0 {
      if r <= 20 || r % 10 == 0 {
        PathRoundTrip(r);
        assert rest[1..] == [];
      } else {
        PathRoundTrip((r / 10) * 10);
        PathRoundTrip(r % 10);
        assert rest[1..] == [Path(r % 10)] && rest[1..][1..] == [];
        assert SumOfValues(rest[1..]) == r % 10;
        assert SumOfValues(rest) == (r / 10) * 10 + r % 10;
        assert |rest[1]| == 6 < |HundredClip|;
      }
    }
  }

  /** The clips of `n` say exactly `n`: the decomposition loses nothing for any input. */
  lemma HeardNumberNames(n: nat)
    ensures Heard(NumberNames(n)) == n
  {
    var names := NumberNames(n);
    HeardRemainder(n % 100);
    if n >= 100 {
      LiteralClips();
      PathRoundTrip(n / 100);
      assert names[2..] == RemainderNames(n % 100);
    } else if n > 0 {
      assert names == RemainderNames(n);
    } else {
      PathRoundTrip(0);
      LiteralClips();
      assert names[1..] == [];
    }
  }

  /** The names of the numbers from `hi` down to `lo`, both included, in that order. */
  function Spoken(hi: int, lo: int): (names: seq<string>)
    requires 0 <= lo
    decreases hi - lo + 1
  {
    if hi < lo then [] else Spoken(hi, lo + 1) + NumberNames(lo)
  }

  /** `Spoken` starts with the names of its highest number. */
  lemma {:induction false} SpokenFront(hi: int, lo: int)
    requires 0 <= lo <= hi
    ensures Spoken(hi, lo) == NumberNames(hi) + Spoken(hi - 1, lo)
    decreases hi - lo
  {
    if lo < hi {
      SpokenFront(hi, lo + 1);
    }
  }

  /** Between one and four names per number, and n + 1 numbers. */
  lemma {:induction false} SpokenLength(hi: int, lo: int)
    requires 0 <= lo
    ensures hi < lo ==> Spoken(hi, lo) == []
    ensures lo <= hi ==> hi - lo + 1 <= |Spoken(hi, lo)| <= 4 * (hi - lo + 1)
    decreases hi - lo + 1
  {
    if lo <= hi {
      SpokenLength(hi, lo + 1);
    }
  }

  /** Every name, before filtering, of the countdown from `start` down to 0. */
  function Candidates(start: int): (names: seq<string>)
  {
    Spoken(start, 0)
  }

  /** The countdown says `start` first, then counts down from `start - 1`. */
  lemma CandidatesStep(start: int)
    requires start >= 1
    ensures Candidates(start) == NumberNames(start) + Candidates(start - 1)
  {
    SpokenFront(start, 0);
  }

  lemma CandidatesLength(start: int)
    ensures start < 0 ==> Candidates(start) == []
    ensures start >= 0 ==> start + 1 <= |Candidates(start)| <= 4 * (start + 1)
  {
    SpokenLength(start, 0);
  }

  /** What `tryEnqueue` adds for one path: the path when it is present, nothing otherwise. */
  function Keep(name: string, present: set<string>): (kept: seq<string>)
  {
    if name in present then [name] else []
  }

  /** `names` with the paths that are not `present` dropped, order kept. */
  function Filter(names: seq<string>, present: set<string>): (kept: seq<string>)
    ensures |kept| <= |names|
    ensures forall i :: 0 <= i < |kept| ==> kept[i] in present
    decreases |names|
  {
    if names == [] then []
    else
      var last := names[|names| - 1];
      Filter(names[..|names| - 1], present) + Keep(last, present)
  }

  /**
   * Filtering one or two names is keeping each of them in turn, and keeping a
   * name gives the name itself when it is present and nothing otherwise.
   */
  lemma FilterShort(a: string, b: string, present: set<string>)
    ensures Filter([a], present) == Keep(a, present)
    ensures Keep(a, present) == [] <==> a !in present
    ensures Keep(a, present) != [] ==> Keep(a, present) == [a]
    ensures Filter([a, b], present) == Keep(a, present) + Keep(b, present)
  {
    assert [a][..0] == [];
    assert [a, b][..1] == [a];
  }

  /** A name is kept exactly when it is in the list and present. */
  lemma {:induction false} FilterMembers(names: seq<string>, present: set<string>, x: string)
    ensures x in Filter(names, present) <==> x in names && x in present
    decreases |names|
  {
    if names != [] {
      var init := names[..|names| - 1];
      assert names == init + [names[|names| - 1]];
      FilterMembers(init, present, x);
    }
  }

  /** Filtering distributes over concatenation: the order of the kept names is the input order. */
  lemma {:induction false} FilterAppend(a: seq<string>, b: seq<string>, present: set<string>)
    ensures Filter(a + b, present) == Filter(a, present) + Filter(b, present)
    decreases |b|
  {
    if b == [] {
      assert a + b == a;
    } else {
      var c := a + b;
      var b' := b[..|b| - 1];
      assert c[..|c| - 1] == a + b';
      var last := b[|b| - 1];
      assert c[|c| - 1] == last;
      var tail := if last in present then [last] else [];
      assert Filter(c, present) == Filter(a + b', present) + tail;
      assert Filter(b, present) == Filter(b', present) + tail;
      FilterAppend(a, b', present);
      assert Filter(a + b', present) + tail == Filter(a, present) + (Filter(b', present) + tail);
    }
  }

  /** When every name is present the filter keeps the list as it is. */
  lemma {:induction false} FilterKeepsPresent(names: seq<string>, present: set<string>)
    requires forall i :: 0 <= i < |names| ==> names[i] in present
    ensures Filter(names, present) == names
    decreases |names|
  {
    if names != [] {
      var init := names[..|names| - 1];
      var last := names[|names| - 1];
      FilterKeepsPresent(init, present);
      assert Keep(last, present) == [last];
      assert init + [last] == names;
    }
  }

  /** A name that is the clip path of the number it names. */
  predicate IsPath(name: string)
  {
    name == Path(ValueOf(name))
  }

  /** Every name any number produces, however large, is a clip path. */
  lemma NumberNamesArePaths(n: nat)
    ensures forall i :: 0 <= i < |NumberNames(n)| ==> IsPath(NumberNames(n)[i])
  {
    var names := NumberNames(n);
    LiteralClips();
    forall i | 0 <= i < |names|
      ensures IsPath(names[i])
    {
      var k: nat :| names[i] == Path(k) by {
        if n == 0 {
          assert names[i] == Path(0);
        } else if n >= 100 && i < 2 {
          assert names[i] == [Path(n / 100), Path(100)][i];
        } else {
          var j := if n >= 100 then i - 2 else i;
          assert names[i] == RemainderNames(n % 100)[j];
        }
      }
      PathRoundTrip(k);
    }
  }

  /** Every name of a countdown, before filtering, is a clip path. */
  lemma {:induction false} SpokenArePaths(hi: int, lo: int)
    requires 0 <= lo
    ensures forall i :: 0 <= i < |Spoken(hi, lo)| ==> IsPath(Spoken(hi, lo)[i])
    decreases hi - lo + 1
  {
    if lo <= hi {
      var front := Spoken(hi, lo + 1);
      SpokenArePaths(hi, lo + 1);
      NumberNamesArePaths(lo);
      forall i | 0 <= i < |Spoken(hi, lo)|
        ensures IsPath(Spoken(hi, lo)[i])
      {
        if i < |front| {
          assert Spoken(hi, lo)[i] == front[i];
        } else {
          assert Spoken(hi, lo)[i] == NumberNames(lo)[i - |front|];
        }
      }
    }
  }

  /** The filter keeps clip paths clip paths. */
  lemma {:induction false} FilterKeepsPaths(names: seq<string>, present: set<string>)
    requires forall i :: 0 <= i < |names| ==> IsPath(names[i])
    ensures forall i :: 0 <= i < |Filter(names, present)| ==> IsPath(Filter(names, present)[i])
    decreases |names|
  {
    if names != [] {
      var init := names[..|names| - 1];
      var last := names[|names| - 1];
      assert forall i :: 0 <= i < |init| ==> init[i] == names[i];
      FilterKeepsPaths(init, present);
      assert Filter(names, present) == Filter(init, present) + Keep(last, present);
    }
  }
}
