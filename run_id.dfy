/**
 * Choosing the RunID under which `save` writes its file `NNN.mfm`: the lowest non-negative
 * number that no file in the data directory already carries. The directory listing is given
 * as a sequence of names.
 */
module RunId {
  import opened Wrappers
  import opened Literals

  /** `fname[:3]`: the first three characters, or the whole name when it is shorter. */
  function Prefix(name: string): (p: string)
    ensures |p| == if |name| < 3 then |name| else 3
    ensures p == name[..|p|]
  {
    if |name| < 3 then name else name[..3]
  }

  /** The number a name carries as `save` reads it: `int(fname[:3])`, or -1 when that raises. */
  function PrefixValue(name: string): int
  {
    match ParseInt(Prefix(name))
    case Some(n) => n
    case None => -1
  }

  /** The number in front of the first `.` of a name, or -1 when there is none. */
  function StemValue(name: string): int
  {
    var stem := match IndexOf(name, '.') case None => name case Some(p) => name[..p];
    match ParseInt(stem)
    case Some(n) => n
    case None => -1
  }

  /** The file `save` writes for a run: `'{0:03d}.mfm'.format(id)`. */
  function FileName(id: int): string
  {
    Pad3(id) + ".mfm"
  }

  /** Some name carries the number `v`. */
  predicate Taken(names: seq<string>, value: string -> int, v: int)
  {
    exists j :: 0 <= j < |names| && value(names[j]) == v
  }

  /** `r` is the least non-negative number no name carries. */
  predicate LowestUnused(names: seq<string>, value: string -> int, r: int)
  {
    r >= 0 && !Taken(names, value, r) && forall v :: 0 <= v < r ==> Taken(names, value, v)
  }

  /** There is one lowest unused number at most. */
  lemma LowestUnusedUnique(names: seq<string>, value: string -> int, r: int, s: int)
    requires LowestUnused(names, value, r) && LowestUnused(names, value, s)
    ensures r == s
  {
  }

  /** The numbers the names carry. */
  function Values(names: seq<string>, value: string -> int): (s: set<int>)
    ensures |s| <= |names|
    ensures forall v :: v in s <==> Taken(names, value, v)
  {
    if names == [] then {}
    else
      var init := Values(names[..|names| - 1], value);
      assert forall v :: Taken(names, value, v) <==>
        Taken(names[..|names| - 1], value, v) || value(names[|names| - 1]) == v by {
        forall v
          ensures Taken(names, value, v) <==> Taken(names[..|names| - 1], value, v) || value(names[|names| - 1]) == v
        {
          if Taken(names, value, v) {
            var j :| 0 <= j < |names| && value(names[j]) == v;
            if j < |names| - 1 {
              assert names[..|names| - 1][j] == names[j];
            }
          }
          if Taken(names[..|names| - 1], value, v) {
            var j :| 0 <= j < |names| - 1 && value(names[..|names| - 1][j]) == v;
            assert names[j] == names[..|names| - 1][j];
          }
        }
      }
      init + {value(names[|names| - 1])}
  }

  /** `{0, ..., n-1}` */
  function Below(n: nat): (s: set<int>)
    ensures |s| == n
    ensures forall v :: v in s <==> 0 <= v < n
  {
    if n == 0 then {} else Below(n - 1) + {n - 1}
  }

  /** `n` names cannot carry more than `n` numbers: every number below the result is carried, so it is at most `|names|`. */
  lemma TakenBound(names: seq<string>, value: string -> int, n: nat)
    requires forall v :: 0 <= v < n ==> Taken(names, value, v)
    ensures n <= |names|
  {
    var below := Below(n);
    var values := Values(names, value);
    assert below <= values;
    CardinalityOfSubset(below, values);
  }

  lemma CardinalityOfSubset(a: set<int>, b: set<int>)
    requires a <= b
    ensures |a| <= |b|
  {
    assert b == a + (b - a);
    assert a * (b - a) == {};
  }

  /**
   * The search loop of `save`: passes over the names until one pass finds none carrying the
   * current candidate, moving the candidate up by one at every name that carries it.
   */
  method Search(names: seq<string>, value: string -> int) returns (lowest: nat)
    ensures LowestUnused(names, value, lowest)
    ensures lowest <= |names|
  {
    lowest := 0;
    var found := false;
    while !found
      invariant forall v :: 0 <= v < lowest ==> Taken(names, value, v)
      invariant lowest <= |names|
      invariant found ==> !Taken(names, value, lowest)
      decreases |names| - lowest + (if found then 0 else 1)
    {
      found := true;
      ghost var start := lowest;
      for j := 0 to |names|
        invariant start <= lowest
        invariant forall v :: 0 <= v < lowest ==> Taken(names, value, v)
        invariant found <==> lowest == start
        invariant found ==> forall i :: 0 <= i < j ==> value(names[i]) != lowest
      {
        if value(names[j]) == lowest {
          lowest := lowest + 1;
          found := false;
        }
      }
      TakenBound(names, value, lowest);
    }
  }

  /** The RunID search of `save` as written, on the three-character prefixes. */
  method SearchAsWritten(names: seq<string>) returns (lowest: nat)
    ensures LowestUnused(names, PrefixValue, lowest)
    ensures lowest <= |names| && lowest <= 1000
  {
    lowest := Search(names, PrefixValue);
    if lowest > 1000 {
      assert Taken(names, PrefixValue, 1000);
      var j :| 0 <= j < |names| && PrefixValue(names[j]) == 1000;
      PrefixValueBound(names[j]);
    }
  }

  /** The RunID search reading each name's whole number in front of its extension. */
  method SearchCorrected(names: seq<string>) returns (lowest: nat)
    ensures LowestUnused(names, StemValue, lowest)
    ensures FileName(lowest) !in names
  {
    lowest := Search(names, StemValue);
    FreshFileName(names, lowest);
  }

  /**
   * The RunID `save` uses: the configured one, or a search of the directory when it is -1. A
   * listing that fails (`None`) gives 0, as the `except` branch does.
   */
  method AssignRunId(runId: int, listing: Option<seq<string>>) returns (id: int)
    ensures runId != -1 ==> id == runId
    ensures runId == -1 && listing.None? ==> id == 0
    ensures runId == -1 && listing.Some? ==> LowestUnused(listing.value, StemValue, id) && FileName(id) !in listing.value
  {
    if runId != -1 {
      id := runId;
    } else if listing.None? {
      id := 0;
    } else {
      id := SearchCorrected(listing.value);
    }
  }

  /** `10^n` */
  function Power10(n: nat): (p: nat)
    ensures p >= 1
  {
    if n == 0 then 1 else 10 * Power10(n - 1)
  }

  /** A digit string of length `n` writes a number below `10^n`. */
  lemma {:induction false} DigitsValueBound(s: string)
    ensures DigitsValue(s) < Power10(|s|)
    decreases |s|
  {
    if s != [] {
      DigitsValueBound(s[..|s| - 1]);
    }
  }

  /** Three characters cannot write a number above 999. */
  lemma ShortIntBound(s: string)
    requires |s| <= 3
    ensures ParseInt(s).Some? ==> ParseInt(s).value <= 999
  {
    var t := Strip(s);
    if |t| > 0 && (t[0] == '+' || t[0] == '-') {
      DigitsValueBound(t[1..]);
      assert Power10(|t[1..]|) <= 100 by {
        assert |t[1..]| <= 2;
      }
    } else {
      DigitsValueBound(t);
      assert Power10(|t|) <= 1000 by {
        assert |t| <= 3;
      }
    }
  }

  /** No name carries a number above 999 to the search as written. */
  lemma PrefixValueBound(name: string)
    ensures PrefixValue(name) <= 999
  {
    ShortIntBound(Prefix(name));
  }

  /** In a digit string followed by an extension, the first `.` is the one that starts the extension. */
  lemma DotAfterDigits(d: string, ext: string)
    requires forall k :: 0 <= k < |d| ==> IsDigit(d[k])
    requires |ext| > 0 && ext[0] == '.'
    ensures IndexOf(d + ext, '.') == Some(|d|)
  {
    var s := d + ext;
    assert s[|d|] == '.';
    forall k | 0 <= k < |d|
      ensures s[k] != '.'
    {
      assert s[k] == d[k];
    }
  }

  /** `'{0:03d}'.format(id)` is digits only for a non-negative `id`, so the stem of its file is `id` again. */
  lemma StemOfFileName(id: nat)
    ensures StemValue(FileName(id)) == id
  {
    var d := Pad3(id);
    Pad3RoundTrip(id);
    DotAfterDigits(d, ".mfm");
    assert (d + ".mfm")[..|d|] == d;
  }

  /** The lowest unused stem number names a file that is not there. */
  lemma FreshFileName(names: seq<string>, id: nat)
    requires !Taken(names, StemValue, id)
    ensures FileName(id) !in names
  {
    if FileName(id) in names {
      var j :| 0 <= j < |names| && names[j] == FileName(id);
      StemOfFileName(id);
    }
  }

  /** A number below 1000 has at most three digits. */
  lemma ShortDecimal(n: nat)
    requires n < 1000
    ensures |Decimal(n)| <= 3
  {
    if n >= 10 {
      assert |Decimal(n / 10)| <= 2 by {
        if n / 10 >= 10 {
          assert n / 10 / 10 < 10;
        }
      }
    }
  }

  /** The file of a RunID below 1000 is named by exactly three digits, so the search as written reads the RunID back. */
  lemma PrefixOfFileName(id: nat)
    requires id < 1000
    ensures PrefixValue(FileName(id)) == id
  {
    Pad3RoundTrip(id);
    ShortDecimal(id);
    Pad3Digits(id);
    var d := Pad3(id);
    assert |d| == 3;
    assert Prefix(FileName(id)) == d;
  }

  /** A data directory holding the runs 000 to 999 and the run 1000. */
  function FullDirectory(): seq<string>
  {
    seq(1001, i => FileName(i))
  }

  /** Every RunID below 1000 is taken in the full directory. */
  lemma FullDirectoryTaken(v: nat)
    requires v < 1000
    ensures Taken(FullDirectory(), PrefixValue, v)
  {
    PrefixOfFileName(v);
    assert FullDirectory()[v] == FileName(v);
  }

  /**
   * With the runs 000 to 999 and 1000 saved, the search as written answers 1000 again: `1000.mfm`
   * is overwritten by every later run.
   */
  lemma AsWrittenOverwrites(lowest: int)
    requires LowestUnused(FullDirectory(), PrefixValue, lowest)
    ensures lowest == 1000 && FileName(lowest) in FullDirectory()
  {
    var names := FullDirectory();
    if lowest > 1000 {
      assert Taken(names, PrefixValue, 1000);
      var j :| 0 <= j < |names| && PrefixValue(names[j]) == 1000;
      PrefixValueBound(names[j]);
      assert false;
    }
    if lowest < 1000 {
      FullDirectoryTaken(lowest);
      assert false;
    }
    assert names[1000] == FileName(1000);
  }
}
