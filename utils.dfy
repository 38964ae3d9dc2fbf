/** Small helpers: a memo cache with a five-minute lifetime, lookups, arithmetic and
    formatting helpers, time-window bounds and table de-duplication. */
module Utils {
  import opened Wrappers
  import opened Seqs
  import opened Text
  import opened JsonValue
  import opened Tables

  // ---------------------------------------------------------------------------
  // Cache keys: `str(args) + str(sorted(kwargs.items()))`

  /** Code-point lexicographic order, as Python compares strings. */
  predicate StrLt(a: string, b: string)
    decreases |a|
  {
    if a == [] then b != []
    else b != [] && (a[0] < b[0] || (a[0] == b[0] && StrLt(a[1..], b[1..])))
  }

  lemma {:induction false} StrLtIrreflexive(a: string)
    ensures !StrLt(a, a)
    decreases |a|
  {
    if a != [] {
      StrLtIrreflexive(a[1..]);
    }
  }

  lemma {:induction false} StrLtTotal(a: string, b: string)
    requires a != b
    ensures StrLt(a, b) || StrLt(b, a)
    decreases |a|
  {
    if a != [] && b != [] && a[0] == b[0] {
      assert a == [a[0]] + a[1..] && b == [b[0]] + b[1..];
      StrLtTotal(a[1..], b[1..]);
    }
  }

  lemma {:induction false} StrLtAsymmetric(a: string, b: string)
    requires StrLt(a, b)
    ensures !StrLt(b, a)
    decreases |a|
  {
    if a != [] && a[0] == b[0] && StrLt(a[1..], b[1..]) {
      StrLtAsymmetric(a[1..], b[1..]);
    }
  }

  /** Keyword arguments, each a name and the rendering of its value. */
  type Kwarg = (string, string)

  /** Names non-decreasing. */
  predicate SortedByName(s: seq<Kwarg>) {
    forall i, j :: 0 <= i < j < |s| ==> !StrLt(s[j].0, s[i].0)
  }

  /** No name occurs twice, as in a Python keyword-argument dictionary. */
  predicate DistinctNames(s: seq<Kwarg>) {
    forall i, j :: 0 <= i < j < |s| ==> s[i].0 != s[j].0
  }

  function InsertByName(x: Kwarg, s: seq<Kwarg>): (r: seq<Kwarg>)
    requires SortedByName(s)
    ensures multiset(r) == multiset(s) + multiset{x}
    ensures SortedByName(r)
    decreases |s|
  {
    if s == [] || !StrLt(s[0].0, x.0) then
      NoneBelowFirst(x, s);
      ConsSorted(x, s);
      [x] + s
    else
      var rest := InsertByName(x, s[1..]);
      assert s == [s[0]] + s[1..];
      NoneBelowHead(x, s, rest);
      ConsSorted(s[0], rest);
      [s[0]] + rest
  }

  /** A name no greater than every name of a sorted list can go in front of it. */
  lemma ConsSorted(y: Kwarg, t: seq<Kwarg>)
    requires SortedByName(t)
    requires forall k :: 0 <= k < |t| ==> !StrLt(t[k].0, y.0)
    ensures SortedByName([y] + t)
  {
    var u := [y] + t;
    forall i, j | 0 <= i < j < |u| ensures !StrLt(u[j].0, u[i].0) {
      if i > 0 {
        assert u[i] == t[i - 1] && u[j] == t[j - 1];
      }
    }
  }

  lemma NoneBelowFirst(x: Kwarg, s: seq<Kwarg>)
    requires SortedByName(s)
    requires s == [] || !StrLt(s[0].0, x.0)
    ensures forall k :: 0 <= k < |s| ==> !StrLt(s[k].0, x.0)
  {
    forall k | 0 <= k < |s| ensures !StrLt(s[k].0, x.0) {
      if k > 0 {
        StrLeTrans(x.0, s[0].0, s[k].0);
      }
    }
  }

  lemma NoneBelowHead(x: Kwarg, s: seq<Kwarg>, rest: seq<Kwarg>)
    requires SortedByName(s) && s != [] && StrLt(s[0].0, x.0)
    requires multiset(rest) == multiset(s[1..]) + multiset{x}
    ensures forall k :: 0 <= k < |rest| ==> !StrLt(rest[k].0, s[0].0)
  {
    forall k | 0 <= k < |rest| ensures !StrLt(rest[k].0, s[0].0) {
      assert rest[k] in multiset(rest);
      if rest[k] == x {
        StrLtAsymmetric(s[0].0, x.0);
      } else {
        assert rest[k] in multiset(s[1..]);
        var j :| 0 <= j < |s[1..]| && s[1..][j] == rest[k];
        assert s[j + 1] == rest[k];
      }
    }
  }

  lemma {:induction false} StrLeTrans(a: string, b: string, c: string)
    requires !StrLt(b, a) && !StrLt(c, b)
    ensures !StrLt(c, a)
    decreases |a|
  {
    if a != [] && b != [] && c != [] && a[0] == b[0] && b[0] == c[0] {
      StrLeTrans(a[1..], b[1..], c[1..]);
    }
  }

  lemma {:induction false} StrLeAntisymmetric(a: string, b: string)
    requires !StrLt(a, b) && !StrLt(b, a)
    ensures a == b
    decreases |a|
  {
    if a != [] && b != [] {
      StrLeAntisymmetric(a[1..], b[1..]);
      assert a == [a[0]] + a[1..] && b == [b[0]] + b[1..];
    }
  }

  /** `sorted(kwargs.items())`: the arguments in name order. */
  function SortByName(s: seq<Kwarg>): (r: seq<Kwarg>)
    ensures multiset(r) == multiset(s)
    ensures SortedByName(r)
    decreases |s|
  {
    if s == [] then []
    else
      assert s == [s[0]] + s[1..];
      InsertByName(s[0], SortByName(s[1..]))
  }

  /** Two name-sorted arrangements of the same arguments, with no name twice, are the
      same sequence. */
  lemma {:induction false} SortedUnique(a: seq<Kwarg>, b: seq<Kwarg>)
    requires multiset(a) == multiset(b)
    requires SortedByName(a) && SortedByName(b) && DistinctNames(a)
    ensures a == b
    decreases |a|
  {
    assert |a| == |multiset(a)| == |b|;
    if a != [] {
      SortedHead(a, b);
      assert a == [a[0]] + a[1..] && b == [b[0]] + b[1..];
      assert multiset(a[1..]) == multiset(a) - multiset{a[0]};
      assert multiset(b[1..]) == multiset(b) - multiset{b[0]};
      SortedUnique(a[1..], b[1..]);
    }
  }

  /** Such arrangements start with the same argument: the one with the least name. */
  lemma SortedHead(a: seq<Kwarg>, b: seq<Kwarg>)
    requires multiset(a) == multiset(b) && a != []
    requires SortedByName(a) && SortedByName(b) && DistinctNames(a)
    ensures b != [] && a[0] == b[0]
  {
    assert a[0] in multiset(b) && b[0] in multiset(a);
    var j :| 0 <= j < |b| && b[j] == a[0];
    var i :| 0 <= i < |a| && a[i] == b[0];
    assert !StrLt(b[0].0, a[0].0) by {
      if i == 0 {
        StrLtIrreflexive(a[0].0);
      }
    }
    assert !StrLt(a[0].0, b[0].0) by {
      if j == 0 {
        StrLtIrreflexive(b[0].0);
      }
    }
    StrLeAntisymmetric(a[0].0, b[0].0);
    assert i == 0;
  }

  /** `repr` of a string that needs no escaping. */
  function Quoted(s: string): string {
    "'" + s + "'"
  }

  /** `str` of a tuple of rendered values: `()`, `(a,)`, `(a, b)`. */
  function TupleRepr(items: seq<string>): string {
    if items == [] then "()"
    else if |items| == 1 then "(" + items[0] + ",)"
    else "(" + Join(items, ", ") + ")"
  }

  function KwargRepr(p: Kwarg): string {
    "(" + Quoted(p.0) + ", " + p.1 + ")"
  }

  /** The cache key of a call: the positional arguments, then the keyword arguments
      in name order. */
  function CacheKey(args: seq<string>, kwargs: seq<Kwarg>): string {
    TupleRepr(args) + "[" + Join(MapSeq(SortByName(kwargs), KwargRepr), ", ") + "]"
  }

  /** The key does not depend on the order the keyword arguments are passed in. */
  lemma CacheKeyOrderFree(args: seq<string>, kw1: seq<Kwarg>, kw2: seq<Kwarg>)
    requires multiset(kw1) == multiset(kw2) && DistinctNames(kw1)
    ensures CacheKey(args, kw1) == CacheKey(args, kw2)
  {
    var s1, s2 := SortByName(kw1), SortByName(kw2);
    assert DistinctNames(s1) by {
      forall i, j | 0 <= i < j < |s1| ensures s1[i].0 != s1[j].0 {
        DistinctNamesPermutation(kw1, s1, i, j);
      }
    }
    SortedUnique(s1, s2);
  }

  lemma DistinctNamesPermutation(s: seq<Kwarg>, t: seq<Kwarg>, i: nat, j: nat)
    requires multiset(s) == multiset(t) && DistinctNames(s)
    requires i < j < |t|
    ensures t[i].0 != t[j].0
  {
    assert t[i] in multiset(s) && t[j] in multiset(s);
    var p :| 0 <= p < |s| && s[p] == t[i];
    var q :| 0 <= q < |s| && s[q] == t[j];
    NoDupCount(s, p);
    assert t[i] == t[j] ==> multiset(t)[t[i]] >= 2 by {
      assert t == t[..j] + [t[j]] + t[j + 1..];
      assert t[i] in t[..j];
    }
    assert p != q;
  }

  /** An element of a sequence with distinct names occurs once. */
  lemma NoDupCount(s: seq<Kwarg>, p: nat)
    requires DistinctNames(s) && p < |s|
    ensures multiset(s)[s[p]] == 1
  {
    assert NoDup(s);
    NoDupMultiset(s);
  }

  // ---------------------------------------------------------------------------
  // The memo cache

  const CacheLifetime: real := 300.0

  /** The state of one `cache_data` wrapper: the stored results and when each was
      stored (seconds). */
  class TtlCache<V> {
    var cache: map<string, V>
    var cacheTime: map<string, real>

    /** Every stored result has a store time and the reverse. */
    predicate Valid()
      reads this
    {
      cache.Keys == cacheTime.Keys
    }

    constructor ()
      ensures Valid() && cache == map[] && cacheTime == map[]
    {
      cache := map[];
      cacheTime := map[];
    }

    /** One call of the wrapper at time `now`: a result stored less than five minutes
        ago is returned and `func` is not called (`called` is false); otherwise `func`
        is called once and its result and `now` are stored under the key. No other
        key changes. */
    method Call(args: seq<string>, kwargs: seq<Kwarg>, now: real, func: (seq<string>, seq<Kwarg>) -> V)
      returns (result: V, called: bool)
      requires Valid()
      modifies this
      ensures Valid()
      ensures var key := CacheKey(args, kwargs);
        if key in old(cache) && key in old(cacheTime) && now - old(cacheTime)[key] < CacheLifetime then
          !called && result == old(cache)[key] && cache == old(cache) && cacheTime == old(cacheTime)
        else
          called && result == func(args, kwargs)
          && cache == old(cache)[key := result] && cacheTime == old(cacheTime)[key := now]
    {
      var key := CacheKey(args, kwargs);
      if key in cache && key in cacheTime {
        if now - cacheTime[key] < CacheLifetime {
          return cache[key], false;
        }
      }
      result := func(args, kwargs);
      called := true;
      cache := cache[key := result];
      cacheTime := cacheTime[key := now];
    }
  }

  // ---------------------------------------------------------------------------
  // Lookups and arithmetic

  const CountryCodes: map<string, string> := map[
    "Australia" := "AU", "United States" := "US", "United Kingdom" := "GB",
    "Germany" := "DE", "France" := "FR", "Japan" := "JP", "Singapore" := "SG",
    "Canada" := "CA", "Netherlands" := "NL", "Italy" := "IT", "Spain" := "ES",
    "Sweden" := "SE", "Norway" := "NO", "Denmark" := "DK", "Finland" := "FI"]

  /** `get_country_code`: the listed two-letter code, "XX" for any other name; no listed
      country has the code "XX". */
  function GetCountryCode(countryName: string): (code: string)
    ensures countryName in CountryCodes ==> code == CountryCodes[countryName]
    ensures code == "XX" <==> countryName !in CountryCodes
    ensures |code| == 2
  {
    if countryName in CountryCodes then CountryCodes[countryName] else "XX"
  }

  /** `safe_divide`: the default for a zero denominator, the exact quotient otherwise. */
  function SafeDivide(numerator: real, denominator: real, default: real): (q: real)
    ensures denominator == 0.0 ==> q == default
    ensures denominator != 0.0 ==> q * denominator == numerator
  {
    if denominator == 0.0 then default else numerator / denominator
  }

  /** `format_large_number`; `fmt1` renders a number with one decimal. Below a thousand
      the plain decimal, which reads back as the number; then thousands with `K`, and
      millions with `M`. */
  function FormatLargeNumber(num: int, fmt1: real -> string): (s: string)
    ensures num < 1000 ==> s == IntStr(num)
    ensures 1000 <= num < 1000000 ==> |s| >= 1 && s[|s| - 1] == 'K' && s[..|s| - 1] == fmt1(num as real / 1000.0)
    ensures num >= 1000000 ==> |s| >= 1 && s[|s| - 1] == 'M' && s[..|s| - 1] == fmt1(num as real / 1000000.0)
  {
    if num >= 1000000 then fmt1(num as real / 1000000.0) + "M"
    else if num >= 1000 then fmt1(num as real / 1000.0) + "K"
    else IntStr(num)
  }

  /** Below a thousand the text reads back as the number. */
  lemma SmallNumberRoundTrip(num: int, fmt1: real -> string)
    requires num < 1000
    ensures var s := FormatLargeNumber(num, fmt1);
      |s| >= 1 && (s[0] == '-' <==> num < 0) && (if s[0] == '-' then AllDigits(s[1..]) else AllDigits(s))
      && ParseInt(s) == num
  {
    IntStrRoundTrip(num);
  }

  // ---------------------------------------------------------------------------
  // Time windows

  /** `get_time_range_dates`: the window ending now; 24 hours, 7 days or 30 days for the
      three labels and one day for any other. */
  function TimeRangeDates(timeRange: string, now: int): (r: (int, int))
    ensures r.1 == now
    ensures timeRange == "Last 24 Hours" ==> r.1 - r.0 == 24 * SecondsPerHour
    ensures timeRange == "Last 7 Days" ==> r.1 - r.0 == 7 * SecondsPerDay
    ensures timeRange == "Last 30 Days" ==> r.1 - r.0 == 30 * SecondsPerDay
    ensures timeRange !in {"Last 24 Hours", "Last 7 Days", "Last 30 Days"} ==> r.1 - r.0 == SecondsPerDay
  {
    var span :=
      if timeRange == "Last 24 Hours" then 24 * SecondsPerHour
      else if timeRange == "Last 7 Days" then 7 * SecondsPerDay
      else if timeRange == "Last 30 Days" then 30 * SecondsPerDay
      else SecondsPerDay;
    (now - span, now)
  }

  // ---------------------------------------------------------------------------
  // De-duplication

  function StampKey(r: PositionRow): Option<int> {
    r.timestamp
  }

  function ScheduleStampKey(r: ScheduleRow): Option<int> {
    r.timestamp
  }

  /** `drop_duplicates()` then `sort_values('timestamp', ascending=False)`. */
  function DedupSort<T(==,!new)>(rows: seq<T>, key: T -> Option<int>): (r: seq<T>)
    ensures NoDup(r)
    ensures forall x :: x in r <==> x in rows
    ensures SortedDesc(r, key)
  {
    var d := Distinct(rows);
    var r := SortDesc(d, key);
    NoDupPermutation(r, d);
    assert forall x :: x in r <==> x in d by {
      forall x ensures x in r <==> x in d {
        assert x in r <==> x in multiset(r);
      }
    }
    r
  }

  /** A cell `drop_duplicates` cannot hash: a JSON list or object (the sensors slot of
      a state vector is the only column that can hold one). */
  predicate Unhashable(j: Json) {
    j.JArr? || j.JObj?
  }

  predicate HasUnhashableCell(t: Table) {
    t.Positions? && exists k :: 0 <= k < |t.positions| && Unhashable(t.positions[k].sensors)
  }

  /** `clean_flight_data` without its per-dtype column pass: an empty table unchanged;
      a table whose de-duplication raises (an unhashable cell) returned as it came;
      otherwise each distinct row once, latest timestamp first. */
  function CleanFlightData(t: Table): (r: Table)
    ensures IsEmpty(t) ==> r == t
    ensures HasUnhashableCell(t) ==> r == t
    ensures t.Blank? <==> r.Blank?
    ensures t.Positions? && !HasUnhashableCell(t) ==> (r.Positions? && NoDup(r.positions)
      && (forall x :: x in r.positions <==> x in t.positions) && SortedDesc(r.positions, StampKey))
    ensures t.Schedules? ==> (r.Schedules? && NoDup(r.schedules)
      && (forall x :: x in r.schedules <==> x in t.schedules) && SortedDesc(r.schedules, ScheduleStampKey))
  {
    if IsEmpty(t) || HasUnhashableCell(t) then t
    else
      match t
      case Blank => t
      case Positions(rows) => Positions(DedupSort(rows, StampKey))
      case Schedules(rows) => Schedules(DedupSort(rows, ScheduleStampKey))
  }
}
