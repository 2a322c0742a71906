/** The occupancy view's mock data: a 32-bit string hash of the period seeds a
    pseudo-random source, from which the month's occupancy, money figures and booked
    calendar days, and a day's detail, are derived.

    `Math.sin` is not modelled: `sinScaled(n)` stands for `Math.sin(n) * 10000`, an
    arbitrary real, and `rand` takes its fractional part exactly as the view does. */
module Occupancy {
  import opened JsCore

  // ---------------------------------------------------------------------------
  // The seed hash
  // ---------------------------------------------------------------------------

  /** One turn of the hash loop: `hash = (hash << 5) - hash + code; hash |= 0`.
      Shifting wraps first, but the result is the same as wrapping 31·h + code once. */
  function HashStep(h: int, code: int): (r: int)
    requires IsInt32(h)
    ensures IsInt32(r)
    ensures r == ToInt32(31 * h + code)
  {
    var shifted := ShiftLeft5(h);
    ToInt32Congruent(shifted - h + code, 31 * h + code);
    ToInt32(shifted - h + code)
  }

  /** The hash after the loop has read all of `units`, starting from 0. */
  function HashOf(units: seq<int>): (h: int)
    ensures IsInt32(h)
  {
    if units == [] then 0 else HashStep(HashOf(units[..|units| - 1]), units[|units| - 1])
  }

  /** The same polynomial without any wrapping: the sum of units[i]·31^(n-1-i). */
  function Polynomial(units: seq<int>): int {
    if units == [] then 0 else 31 * Polynomial(units[..|units| - 1]) + units[|units| - 1]
  }

  /** Wrapping at every step gives the same hash as wrapping the exact polynomial once. */
  lemma {:induction false} HashIsWrappedPolynomial(units: seq<int>)
    ensures HashOf(units) == ToInt32(Polynomial(units))
  {
    if units != [] {
      var p := units[..|units| - 1];
      var c := units[|units| - 1];
      HashIsWrappedPolynomial(p);
      var t := ToInt32(Polynomial(p));
      var k := (Polynomial(p) - t) / TWO_32;
      assert Polynomial(p) - t == k * TWO_32;
      assert (31 * Polynomial(p) + c) - (31 * t + c) == (31 * k) * TWO_32;
      MultipleOfTwo32(31 * k);
      ToInt32Congruent(31 * Polynomial(p) + c, 31 * t + c);
    }
  }

  lemma MultipleOfTwo32(k: int)
    ensures (k * TWO_32) % TWO_32 == 0
  {
  }

  /** The hash of a concatenation continues from the hash of its first part. */
  function HashFrom(h: int, units: seq<int>): (r: int)
    requires IsInt32(h)
    ensures IsInt32(r)
  {
    if units == [] then h else HashStep(HashFrom(h, units[..|units| - 1]), units[|units| - 1])
  }

  lemma {:induction false} HashOfAppend(a: seq<int>, b: seq<int>)
    ensures HashOf(a + b) == HashFrom(HashOf(a), b)
    decreases |b|
  {
    if b == [] {
      assert a + b == a;
    } else {
      assert (a + b)[..|a + b| - 1] == a + b[..|b| - 1];
      assert (a + b)[|a + b| - 1] == b[|b| - 1];
      HashOfAppend(a, b[..|b| - 1]);
    }
  }

  lemma {:induction false} CodeUnitsAppend(a: string, b: string)
    ensures CodeUnits(a + b) == CodeUnits(a) + CodeUnits(b)
    decreases |b|
  {
    if b == [] {
      assert a + b == a;
    } else {
      assert (a + b)[..|a + b| - 1] == a + b[..|b| - 1];
      assert (a + b)[|a + b| - 1] == b[|b| - 1];
      CodeUnitsAppend(a, b[..|b| - 1]);
    }
  }

  /** The loop over `seed.charCodeAt(i)`. */
  method SeedHash(seed: string) returns (hash: int)
    ensures hash == HashOf(CodeUnits(seed))
    ensures IsInt32(hash)
  {
    var units := CodeUnits(seed);
    hash := 0;
    var i := 0;
    while i < |units|
      invariant 0 <= i <= |units|
      invariant hash == HashOf(units[..i])
    {
      assert units[..i + 1][..i] == units[..i];
      hash := ToInt32(ShiftLeft5(hash) - hash + units[i]);
      i := i + 1;
    }
    assert units[..i] == units;
  }

  function MonthSeed(month: string, year: string): string { month + year }

  function DaySeed(month: string, year: string, day: nat): string { month + year + Decimal(day) }

  /** A day's hash carries on from its month's hash over the digits of the day. */
  lemma DayHashExtendsMonthHash(month: string, year: string, day: nat)
    ensures HashOf(CodeUnits(DaySeed(month, year, day)))
      == HashFrom(HashOf(CodeUnits(MonthSeed(month, year))), CodeUnits(Decimal(day)))
  {
    CodeUnitsAppend(month + year, Decimal(day));
    HashOfAppend(CodeUnits(month + year), CodeUnits(Decimal(day)));
  }

  // ---------------------------------------------------------------------------
  // The derived monthly figures
  // ---------------------------------------------------------------------------

  /** `rand(offset)`: the fractional part of `Math.sin(hash + offset) * 10000`. */
  function Rand(sinScaled: int -> real, hash: int, offset: int): (r: real)
    ensures 0.0 <= r < 1.0
  {
    Frac(sinScaled(hash + offset))
  }

  /** `Math.floor(65 + r * 30)`. */
  function OccupancyOf(r: real): int {
    (65.0 + r * 30.0).Floor
  }

  /** For r in [0, 1) occupancy is a whole percentage from 65 to 94: 95, which the
      source's comment names as the top, is never reached. */
  lemma OccupancyBounds(r: real)
    requires 0.0 <= r < 1.0
    ensures 65 <= OccupancyOf(r) <= 94
    ensures r < 1.0 / 30.0 ==> OccupancyOf(r) == 65
    ensures r >= 29.0 / 30.0 ==> OccupancyOf(r) == 94
  {
    var x := 65.0 + r * 30.0;
    assert 65.0 <= x < 95.0;
  }

  /** `Math.floor((occupancy / 100) * 30)`. */
  function ActiveDaysCount(occupancy: int): int {
    ((occupancy as real / 100.0) * 30.0).Floor
  }

  /** From an occupancy of 65..94 between 19 and 28 draws are made. */
  lemma ActiveDaysCountBounds(occupancy: int)
    requires 65 <= occupancy <= 94
    ensures 19 <= ActiveDaysCount(occupancy) <= 28
  {
    var x := (occupancy as real / 100.0) * 30.0;
    assert x == occupancy as real * 0.3;
    assert 19.5 <= x <= 28.2;
  }

  function Revenue(r: real): real { 80000.0 + r * 70000.0 }
  function CostRatio(r: real): real { 0.3 + r * 0.1 }

  /** Revenue lies in [80000, 150000), the cost ratio in [0.3, 0.4); costs are revenue
      times the ratio and the net utility is what remains, between 60% and 70% of
      revenue. */
  lemma MoneyBounds(r2: real, r3: real)
    requires 0.0 <= r2 < 1.0 && 0.0 <= r3 < 1.0
    ensures 80000.0 <= Revenue(r2) < 150000.0
    ensures 0.3 <= CostRatio(r3) < 0.4
    ensures 24000.0 <= Revenue(r2) * CostRatio(r3) < 60000.0
    ensures 0.6 * Revenue(r2) < Revenue(r2) - Revenue(r2) * CostRatio(r3) <= 0.7 * Revenue(r2)
    ensures Revenue(r2) - Revenue(r2) * CostRatio(r3) > 48000.0
  {
    RevenueTimesRatio(r2, r3);
    assert 0.0 <= r2 * r3 <= r2 by {
      ProductNonNegative(r2, r3);
      ProductNonNegative(r2, 1.0 - r3);
    }
  }

  /** Costs written out in the two draws. */
  lemma RevenueTimesRatio(r2: real, r3: real)
    ensures Revenue(r2) * CostRatio(r3) == 24000.0 + 8000.0 * r3 + 21000.0 * r2 + 7000.0 * (r2 * r3)
  {
  }

  lemma ProductNonNegative(x: real, y: real)
    requires x >= 0.0 && y >= 0.0
    ensures x * y >= 0.0
  {
  }

  // ---------------------------------------------------------------------------
  // The booked days
  // ---------------------------------------------------------------------------

  /** `Math.floor(r * 30) + 1`: a calendar day 1..30. */
  function DayOf(r: real): (day: int)
    requires 0.0 <= r < 1.0
    ensures 1 <= day <= 30
  {
    (r * 30.0).Floor + 1
  }

  /** The day drawn on turn i of the calendar loop, from `rand(i + 10)`. */
  function Draw(sinScaled: int -> real, hash: int, i: int): (day: int)
    ensures 1 <= day <= 30
  {
    DayOf(Rand(sinScaled, hash, i + 10))
  }

  /** The days the loop draws: one per i < count. */
  ghost function DrawnDays(sinScaled: int -> real, hash: int, count: int): set<int> {
    set i | 0 <= i < count :: Draw(sinScaled, hash, i)
  }

  ghost predicate StrictlyAscending(s: seq<int>) {
    forall p, q :: 0 <= p < q < |s| ==> s[p] < s[q]
  }

  /** The first n entries of `a` are in ascending order. */
  ghost predicate SortedPrefix(a: array<int>, n: int)
    reads a
  {
    forall p, q :: 0 <= p < q < n && q < a.Length ==> a[p] <= a[q]
  }

  /** Swaps two of the first n entries of an array: the first n entries keep their
      multiset and every other entry stays. */
  method Swap(a: array<int>, i: nat, j: nat, n: nat)
    requires i < n && j < n && n <= a.Length
    modifies a
    ensures a[i] == old(a[j]) && a[j] == old(a[i])
    ensures forall k :: 0 <= k < a.Length && k != i && k != j ==> a[k] == old(a[k])
    ensures multiset(a[..n]) == multiset(old(a[..n]))
  {
    ghost var before := a[..n];
    a[i], a[j] := a[j], a[i];
    assert a[..n] == before[i := before[j]][j := before[i]];
  }

  /** Midway through sinking entry j of the first i + 1: apart from j they are
      ascending, and j is below everything after it. */
  ghost predicate Sinking(s: seq<int>, j: nat, i: nat)
    requires j <= i < |s|
  {
    (forall p, q :: 0 <= p < q <= i && p != j && q != j ==> s[p] <= s[q])
    && (forall q :: j < q <= i ==> s[j] < s[q])
  }

  /** Swapping the sinking entry with a larger left neighbour moves it one place left. */
  lemma SinkStep(s: seq<int>, j: nat, i: nat)
    requires 0 < j <= i < |s| && Sinking(s, j, i) && s[j - 1] > s[j]
    ensures Sinking(s[j - 1 := s[j]][j := s[j - 1]], j - 1, i)
  {
    var t := s[j - 1 := s[j]][j := s[j - 1]];
    forall p, q | 0 <= p < q <= i && p != j - 1 && q != j - 1 ensures t[p] <= t[q] {
      if p == j {
        assert t[p] == s[j - 1];
        assert s[j - 1] <= s[q];
      } else if q == j {
        assert t[q] == s[j - 1];
        assert s[p] <= s[j - 1];
      }
    }
  }

  /** Once the left neighbour is no larger, the first i + 1 entries are ascending. */
  lemma SinkDone(s: seq<int>, j: nat, i: nat)
    requires j <= i < |s| && Sinking(s, j, i) && (j == 0 || s[j - 1] <= s[j])
    ensures forall p, q :: 0 <= p < q <= i ==> s[p] <= s[q]
  {
    forall p, q | 0 <= p < q <= i ensures s[p] <= s[q] {
      if q == j && p < j - 1 {
        assert s[p] <= s[j - 1];
      } else if p == j && q > j {
        assert s[j] < s[q];
      }
    }
  }

  /** One pass of insertion: entry i sinks into the sorted prefix before it. The first
      i + 1 entries become ascending and keep their multiset; every later entry stays. */
  method SinkInto(a: array<int>, i: nat)
    requires i < a.Length && SortedPrefix(a, i)
    modifies a
    ensures SortedPrefix(a, i + 1)
    ensures multiset(a[..i + 1]) == multiset(old(a[..i + 1]))
    ensures forall k :: i < k < a.Length ==> a[k] == old(a[k])
  {
    var j := i;
    assert Sinking(a[..], j, i);
    while j > 0 && a[j - 1] > a[j]
      invariant 0 <= j <= i
      invariant Sinking(a[..], j, i)
      invariant multiset(a[..i + 1]) == multiset(old(a[..i + 1]))
      invariant forall k :: i < k < a.Length ==> a[k] == old(a[k])
    {
      ghost var b := a[..];
      SinkStep(b, j, i);
      Swap(a, j - 1, j, i + 1);
      assert a[..] == b[j - 1 := b[j]][j := b[j - 1]];
      j := j - 1;
    }
    SinkDone(a[..], j, i);
  }

  /** `activeDays.sort((a, b) => a - b)` on the first n entries: ascending, a
      permutation, nothing beyond n touched (insertion sort by adjacent swaps). */
  method SortAscending(a: array<int>, n: nat)
    requires n <= a.Length
    modifies a
    ensures forall p, q :: 0 <= p < q < n ==> a[p] <= a[q]
    ensures multiset(a[..n]) == multiset(old(a[..n]))
    ensures forall k :: n <= k < a.Length ==> a[k] == old(a[k])
  {
    var i := 0;
    while i < n
      invariant 0 <= i <= n
      invariant SortedPrefix(a, i)
      invariant multiset(a[..n]) == multiset(old(a[..n]))
      invariant forall k :: n <= k < a.Length ==> a[k] == old(a[k])
    {
      ghost var before := a[..];
      SinkInto(a, i);
      assert a[..n] == a[..i + 1] + a[i + 1..n];
      assert before[..n] == before[..i + 1] + before[i + 1..n];
      assert a[i + 1..n] == before[i + 1..n];
      i := i + 1;
    }
  }

  /** The calendar loop: for each i < count draw `day` from `rand(i + 10)` and push it
      unless already there; then sort. The result lists each drawn day once, ascending. */
  method BuildActiveDays(sinScaled: int -> real, hash: int, count: int) returns (days: seq<int>)
    ensures StrictlyAscending(days)
    ensures forall k :: 0 <= k < |days| ==> 1 <= days[k] <= 30
    ensures |days| <= if count < 0 then 0 else count
    ensures forall d :: d in days <==> d in DrawnDays(sinScaled, hash, count)
  {
    var capacity := if count < 0 then 0 else count;
    var a := new int[capacity];
    var len := 0;
    var i := 0;
    while i < count
      invariant 0 <= len <= capacity && (count >= 0 ==> 0 <= i <= count)
      invariant count < 0 ==> i == 0
      invariant len <= i
      invariant NoDuplicates(a[..len])
      invariant forall d :: d in a[..len] <==> d in DrawnDays(sinScaled, hash, i)
    {
      var day := Draw(sinScaled, hash, i);
      DrawnDaysStep(sinScaled, hash, i);
      ghost var prev := a[..len];
      if day !in a[..len] {
        a[len] := day;
        len := len + 1;
      }
      assert a[..len] == prev + [day] || (a[..len] == prev && day in prev);
      i := i + 1;
    }
    ghost var drawn := a[..len];
    SortAscending(a, len);
    days := a[..len];
    SortedDistinct(drawn, days);
    DrawnDaysInRange(sinScaled, hash, count);
    forall k | 0 <= k < |days| ensures 1 <= days[k] <= 30 {
      assert days[k] in days;
    }
  }

  /** Every drawn day is a calendar day. */
  lemma DrawnDaysInRange(sinScaled: int -> real, hash: int, count: int)
    ensures forall d :: d in DrawnDays(sinScaled, hash, count) ==> 1 <= d <= 30
  {
    forall d | d in DrawnDays(sinScaled, hash, count) ensures 1 <= d <= 30 {
      var i :| 0 <= i < count && d == Draw(sinScaled, hash, i);
    }
  }

  /** Sorting a duplicate-free sequence gives a strictly ascending one with the same
      members. */
  lemma SortedDistinct(drawn: seq<int>, days: seq<int>)
    requires NoDuplicates(drawn) && multiset(days) == multiset(drawn)
    requires forall p, q :: 0 <= p < q < |days| ==> days[p] <= days[q]
    ensures StrictlyAscending(days)
    ensures forall d :: d in days <==> d in drawn
  {
    forall d ensures d in days <==> d in drawn {
      assert d in days <==> d in multiset(days);
      assert d in drawn <==> d in multiset(drawn);
    }
    forall p, q | 0 <= p < q < |days| ensures days[p] < days[q] {
      if days[p] == days[q] {
        RepeatCountsTwo(days, p, q);
        DistinctCountsAtMostOne(drawn, days[p]);
        assert false;
      }
    }
  }

  /** One more turn of the loop adds its own draw to the drawn days. */
  lemma DrawnDaysStep(sinScaled: int -> real, hash: int, i: nat)
    ensures DrawnDays(sinScaled, hash, i + 1) == DrawnDays(sinScaled, hash, i) + {Draw(sinScaled, hash, i)}
  {
    assert Draw(sinScaled, hash, i) in DrawnDays(sinScaled, hash, i + 1);
  }

  /** A duplicate-free sequence holds each value at most once. */
  lemma {:induction false} DistinctCountsAtMostOne(s: seq<int>, x: int)
    requires NoDuplicates(s)
    ensures multiset(s)[x] <= 1
  {
    if s != [] {
      var init := s[..|s| - 1];
      assert s == init + [s[|s| - 1]];
      assert NoDuplicates(init);
      DistinctCountsAtMostOne(init, x);
      if x == s[|s| - 1] {
        assert x !in init;
      }
    }
  }

  /** A value found at two positions is counted at least twice. */
  lemma RepeatCountsTwo(s: seq<int>, p: nat, q: nat)
    requires p < q < |s| && s[p] == s[q]
    ensures multiset(s)[s[p]] >= 2
  {
    assert s == s[..p] + [s[p]] + s[p + 1..q] + [s[q]] + s[q + 1..];
  }

  // ---------------------------------------------------------------------------
  // The month's data and a day's detail
  // ---------------------------------------------------------------------------

  datatype MonthData = MonthData(
    occupancy: int,
    monthlyRevenue: real,
    monthlyCosts: real,
    netUtility: real,
    activeDays: seq<int>)

  /** Occupancy, revenue, costs and net utility from the draws `rand(1)`, `rand(2)` and
      `rand(3)`: occupancy is 65..94 and costs lie in [24000, 60000). */
  function MonthFigures(r1: real, r2: real, r3: real): (f: (int, real, real, real))
    requires 0.0 <= r1 < 1.0 && 0.0 <= r2 < 1.0 && 0.0 <= r3 < 1.0
    ensures f.0 == OccupancyOf(r1) && f.1 == Revenue(r2)
    ensures f.2 == f.1 * CostRatio(r3) && f.3 == f.1 - f.2
    ensures 65 <= f.0 <= 94
    ensures 24000.0 <= f.2 < 60000.0
  {
    OccupancyBounds(r1);
    MoneyBounds(r2, r3);
    var revenue := Revenue(r2);
    var costs := revenue * CostRatio(r3);
    (OccupancyOf(r1), revenue, costs, revenue - costs)
  }

  /** The view's `data` for a month and year. */
  method GenerateMonthData(month: string, year: string, sinScaled: int -> real) returns (data: MonthData)
    ensures var h := HashOf(CodeUnits(MonthSeed(month, year)));
      (data.occupancy, data.monthlyRevenue, data.monthlyCosts, data.netUtility) == MonthFigures(Rand(sinScaled, h, 1), Rand(sinScaled, h, 2), Rand(sinScaled, h, 3))
      && forall d :: d in data.activeDays <==> d in DrawnDays(sinScaled, h, ActiveDaysCount(data.occupancy))
    ensures |data.activeDays| <= 28
    ensures StrictlyAscending(data.activeDays)
    ensures forall k :: 0 <= k < |data.activeDays| ==> 1 <= data.activeDays[k] <= 30
  {
    var hash := SeedHash(month + year);
    var (occupancy, revenue, monthlyCosts, netUtility) :=
      MonthFigures(Rand(sinScaled, hash, 1), Rand(sinScaled, hash, 2), Rand(sinScaled, hash, 3));
    var count := ActiveDaysCount(occupancy);
    ActiveDaysCountBounds(occupancy);
    var activeDays := BuildActiveDays(sinScaled, hash, count);
    data := MonthData(occupancy, revenue, monthlyCosts, netUtility, activeDays);
  }

  datatype DayDetail = DayDetail(date: int, revenue: real, cost: real, occupancy: int)

  /** `getDayDetail(day)`: a booked day is fully occupied, and revenue and cost come
      from the same draw, so the cost rises a quarter as fast as the revenue. */
  method GetDayDetail(month: string, year: string, day: nat, sinScaled: int -> real) returns (detail: DayDetail)
    ensures var r := Frac(sinScaled(HashOf(CodeUnits(DaySeed(month, year, day)))));
      detail.revenue == 3000.0 + r * 2000.0
    ensures detail.date == day && detail.occupancy == 100
    ensures 3000.0 <= detail.revenue < 5000.0
    ensures 800.0 <= detail.cost < 1300.0
    ensures detail.cost == 800.0 + (detail.revenue - 3000.0) / 4.0
  {
    var hash := SeedHash(month + year + Decimal(day));
    var randVal := Frac(sinScaled(hash));
    detail := DayDetail(day, 3000.0 + randVal * 2000.0, 800.0 + randVal * 500.0, 100);
  }
}
