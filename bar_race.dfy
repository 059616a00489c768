/** The frame and index arithmetic of the animated bar-chart race
    (`pandas_learn/pandas_learn.py`): clamping of the command-line
    configuration, tween frames between days, the day shown by a frame,
    per-product running sums, colour assignment and currency labels. */
module BarRace {
  import opened Wrappers
  import opened Text
  import opened Arith

  // ---------------------------------------------------------------------
  // Configuration
  // ---------------------------------------------------------------------

  /** The parsed command line, before any clamping. */
  datatype Args = Args(top: int, tween: int, fps: int, interval: int, days: int, products: int,
                       seed: int, save: bool, show: bool, out: string, csv: Option<string>)

  /** The `Config` dataclass handed to the rest of the script. */
  datatype Config = Config(topN: int, tween: int, fps: int, interval: int, days: int, products: int,
                           seed: int, save: bool, show: bool, out: string, csv: Option<string>)

  /** Python's `max(lo, x)` on integers. */
  function AtLeast(lo: int, x: int): (r: int)
    ensures r >= lo && r >= x
    ensures r == lo || r == x
  {
    if x < lo then lo else x
  }

  /** `parse_args`: frame timing is at least 1, data sizes at least 2, the
      rest passes through; the window is shown unless only saving was asked. */
  function ParseArgs(a: Args): (c: Config)
    ensures c.tween >= 1 && c.fps >= 1 && c.interval >= 1
    ensures c.days >= 2 && c.products >= 2
    ensures a.tween >= 1 ==> c.tween == a.tween
    ensures a.fps >= 1 ==> c.fps == a.fps
    ensures a.interval >= 1 ==> c.interval == a.interval
    ensures a.days >= 2 ==> c.days == a.days
    ensures a.products >= 2 ==> c.products == a.products
    ensures c.tween == AtLeast(1, a.tween) && c.fps == AtLeast(1, a.fps)
    ensures c.interval == AtLeast(1, a.interval)
    ensures c.days == AtLeast(2, a.days) && c.products == AtLeast(2, a.products)
    ensures c.topN == a.top && c.seed == a.seed && c.out == a.out && c.csv == a.csv
    ensures c.save == a.save
    ensures c.show <==> a.show || !a.save
  {
    var show := if a.show then a.show else (if a.save then false else true);
    Config(a.top, AtLeast(1, a.tween), AtLeast(1, a.fps), AtLeast(1, a.interval),
           AtLeast(2, a.days), AtLeast(2, a.products), a.seed, a.save, show, a.out, a.csv)
  }

  /** The command line that would reproduce a configuration. */
  function AsArgs(c: Config): Args
  {
    Args(c.topN, c.tween, c.fps, c.interval, c.days, c.products, c.seed, c.save, c.show, c.out, c.csv)
  }

  /** Parsing is idempotent: feeding a parsed configuration back in changes
      nothing, so every clamped value is already in range. */
  lemma ParseArgsIdempotent(a: Args)
    ensures ParseArgs(AsArgs(ParseArgs(a))) == ParseArgs(a)
  {
  }

  // ---------------------------------------------------------------------
  // Tween frames
  // ---------------------------------------------------------------------

  /** A row of the cumulative table: one value per product column. */
  type Row = seq<real>

  /** All rows have the same number of columns, as in a data frame. */
  predicate Rectangular(rows: seq<Row>)
  {
    forall i :: 0 <= i < |rows| ==> |rows[i]| == |rows[0]|
  }

  /** `v0 * (1 - alpha) + v1 * alpha`, column by column. */
  function Lerp(v0: Row, v1: Row, alpha: real): (r: Row)
    requires |v0| == |v1|
    ensures |r| == |v0|
    ensures forall j :: 0 <= j < |r| ==> r[j] == v0[j] * (1.0 - alpha) + v1[j] * alpha
  {
    seq(|v0|, j requires 0 <= j < |v0| => v0[j] * (1.0 - alpha) + v1[j] * alpha)
  }

  /** At `alpha == 1` the blend is the second row. */
  lemma LerpAtOne(v0: Row, v1: Row)
    requires |v0| == |v1|
    ensures Lerp(v0, v1, 1.0) == v1
  {
  }

  /** `alpha = (s + 1) / tween` for the `s`-th step between two days. */
  function Alpha(s: nat, tween: nat): (alpha: real)
    requires s < tween
    ensures 0.0 < alpha <= 1.0
    ensures alpha == 1.0 <==> s == tween - 1
  {
    (s + 1) as real / tween as real
  }

  /** Position of step `s` between day `p` and day `p + 1`. */
  function FrameIndex(p: nat, s: nat, tween: nat): nat
  {
    1 + p * tween + s
  }

  lemma FrameIndexBound(p: nat, s: nat, i: nat, tween: nat)
    requires p < i && s < tween
    ensures FrameIndex(p, s, tween) < 1 + i * tween
  {
    assert p * tween + s < (p + 1) * tween;
    assert (p + 1) * tween <= i * tween;
  }

  /** What `build_tween_frames` promises: `1 + (days - 1) * tween` frames,
      the first day first, then for each pair of days `tween` blends. */
  predicate Tweened(frames: seq<Row>, rows: seq<Row>, tween: nat)
    requires |rows| >= 1 && Rectangular(rows)
  {
    && |frames| == 1 + (|rows| - 1) * tween
    && frames[0] == rows[0]
    && forall p, s :: 0 <= p < |rows| - 1 && 0 <= s < tween ==>
         FrameIndex(p, s, tween) < |frames| &&
         frames[FrameIndex(p, s, tween)] == Lerp(rows[p], rows[p + 1], Alpha(s, tween))
  }

  /** `build_tween_frames`. */
  method BuildTweenFrames(rows: seq<Row>, tween: nat) returns (frames: seq<Row>)
    requires |rows| >= 1 && Rectangular(rows)
    ensures Tweened(frames, rows, tween)
  {
    frames := [rows[0]];
    var i := 0;
    while i < |rows| - 1
      invariant 0 <= i <= |rows| - 1
      invariant |frames| == 1 + i * tween
      invariant frames[0] == rows[0]
      invariant forall p, s :: 0 <= p < i && 0 <= s < tween ==>
                  FrameIndex(p, s, tween) < |frames| &&
                  frames[FrameIndex(p, s, tween)] == Lerp(rows[p], rows[p + 1], Alpha(s, tween))
    {
      var v0, v1 := rows[i], rows[i + 1];
      var s := 0;
      while s < tween
        invariant 0 <= s <= tween
        invariant |frames| == 1 + i * tween + s
        invariant frames[0] == rows[0]
        invariant forall p, t :: 0 <= p < i && 0 <= t < tween ==>
                    FrameIndex(p, t, tween) < |frames| &&
                    frames[FrameIndex(p, t, tween)] == Lerp(rows[p], rows[p + 1], Alpha(t, tween))
        invariant forall t :: 0 <= t < s ==>
                    FrameIndex(i, t, tween) < |frames| &&
                    frames[FrameIndex(i, t, tween)] == Lerp(v0, v1, Alpha(t, tween))
      {
        frames := frames + [Lerp(v0, v1, Alpha(s, tween))];
        s := s + 1;
      }
      forall p, t | 0 <= p < i + 1 && 0 <= t < tween
        ensures FrameIndex(p, t, tween) < |frames|
        ensures frames[FrameIndex(p, t, tween)] == Lerp(rows[p], rows[p + 1], Alpha(t, tween))
      {
        FrameIndexBound(p, t, i + 1, tween);
      }
      assert |frames| == 1 + (i + 1) * tween;
      i := i + 1;
    }
  }

  /** Frame `k * tween` is exactly day `k`: the last blend towards a day
      has `alpha == 1`. */
  lemma {:induction false} KeyFramesAreDays(frames: seq<Row>, rows: seq<Row>, tween: nat, k: nat)
    requires |rows| >= 1 && Rectangular(rows) && Tweened(frames, rows, tween)
    requires tween >= 1 && k < |rows|
    ensures k * tween < |frames| && frames[k * tween] == rows[k]
  {
    if k > 0 {
      assert FrameIndex(k - 1, tween - 1, tween) == k * tween;
      LerpAtOne(rows[k - 1], rows[k]);
    }
  }

  // ---------------------------------------------------------------------
  // Day shown by a frame
  // ---------------------------------------------------------------------

  /** `min(frame_idx // tween, len(dates) - 1)` in `update`. */
  function DayIndex(frameIdx: nat, tween: int, numDates: nat): (d: nat)
    requires tween >= 1 && numDates >= 1
    ensures d < numDates
    ensures d <= frameIdx / tween
    ensures d == frameIdx / tween || d == numDates - 1
  {
    var q := frameIdx / tween;
    if q < numDates - 1 then q else numDates - 1
  }

  /** Key frame `k * tween` shows day `k`. */
  lemma DayIndexOfKeyFrame(k: nat, tween: int, numDates: nat)
    requires tween >= 1 && k < numDates
    ensures DayIndex(k * tween, tween, numDates) == k
  {
    DivOfMultiple(k, tween);
  }

  /** Later frames never show an earlier day. */
  lemma DayIndexMonotone(f: nat, g: nat, tween: int, numDates: nat)
    requires tween >= 1 && numDates >= 1 && f <= g
    ensures DayIndex(f, tween, numDates) <= DayIndex(g, tween, numDates)
  {
    DivMonotone(f, g, tween);
  }

  // ---------------------------------------------------------------------
  // Running sums per product
  // ---------------------------------------------------------------------

  /** One order line: the day it was placed, the product, unit price and quantity. */
  datatype Order = Order(date: int, product: string, price: real, quantity: int)

  /** `price * quantity`. */
  function Total(o: Order): real
  {
    o.price * o.quantity as real
  }

  predicate StrictlyIncreasing(s: seq<int>)
  {
    forall i, j :: 0 <= i < j < |s| ==> s[i] < s[j]
  }

  /** Inserts a day into an ascending list of distinct days. */
  function InsertDay(x: int, s: seq<int>): (r: seq<int>)
    requires StrictlyIncreasing(s)
    ensures StrictlyIncreasing(r)
    ensures forall y :: y in r <==> y == x || y in s
  {
    if s == [] then [x]
    else if x < s[0] then [x] + s
    else if x == s[0] then s
    else
      TailIncreasing(s);
      var rest := InsertDay(x, s[1..]);
      PrependSmaller(s[0], rest);
      [s[0]] + rest
  }

  /** The tail of an ascending list is ascending and above its head. */
  lemma TailIncreasing(s: seq<int>)
    requires StrictlyIncreasing(s) && s != []
    ensures StrictlyIncreasing(s[1..])
    ensures forall y :: y in s[1..] ==> s[0] < y
  {
    forall i, j | 0 <= i < j < |s[1..]| ensures s[1..][i] < s[1..][j] {
      assert s[1..][i] == s[i + 1] && s[1..][j] == s[j + 1];
    }
    forall y | y in s[1..] ensures s[0] < y {
      var k :| 0 <= k < |s[1..]| && s[1..][k] == y;
      assert s[1..][k] == s[k + 1];
    }
  }

  /** Putting a smaller value in front keeps a list ascending. */
  lemma PrependSmaller(h: int, rest: seq<int>)
    requires StrictlyIncreasing(rest) && forall y :: y in rest ==> h < y
    ensures StrictlyIncreasing([h] + rest)
  {
    var t := [h] + rest;
    forall i, j | 0 <= i < j < |t| ensures t[i] < t[j] {
      assert t[j] == rest[j - 1] && rest[j - 1] in rest;
      if i > 0 {
        assert t[i] == rest[i - 1];
      }
    }
  }

  /** The index of the grouped table: the distinct order days, ascending. */
  function OrderDays(orders: seq<Order>): (days: seq<int>)
    ensures StrictlyIncreasing(days)
    ensures forall d :: d in days <==> exists i :: 0 <= i < |orders| && orders[i].date == d
  {
    if orders == [] then []
    else
      var rest := OrderDays(orders[1..]);
      assert forall i :: 0 < i < |orders| ==> orders[i] == orders[1..][i - 1];
      InsertDay(orders[0].date, rest)
  }

  /** One cell of `groupby([date, product]).sum().unstack(fill_value=0)`. */
  function DailyTotal(orders: seq<Order>, day: int, product: string): real
  {
    if orders == [] then 0.0
    else (if orders[0].date == day && orders[0].product == product then Total(orders[0]) else 0.0)
         + DailyTotal(orders[1..], day, product)
  }

  /** One cell of `cumsum()`: the daily totals of days `0..d`. */
  function Cumulative(orders: seq<Order>, days: seq<int>, product: string, d: nat): real
    requires d < |days|
  {
    (if d == 0 then 0.0 else Cumulative(orders, days, product, d - 1)) + DailyTotal(orders, days[d], product)
  }

  /** `build_cumulative`: one row per day, ascending; column `j` holds the
      running revenue of `columns[j]`. Also returns the day axis. */
  function BuildCumulative(orders: seq<Order>, columns: seq<string>): (r: (seq<Row>, seq<int>))
    ensures r.1 == OrderDays(orders) && |r.0| == |r.1|
    ensures Rectangular(r.0)
    ensures forall d :: 0 <= d < |r.0| ==> |r.0[d]| == |columns|
  {
    var days := OrderDays(orders);
    (seq(|days|, d requires 0 <= d < |days| =>
        seq(|columns|, j requires 0 <= j < |columns| => Cumulative(orders, days, columns[j], d))),
     days)
  }

  /** The revenue of `product` from orders placed on or before `day`. */
  function RevenueUpTo(orders: seq<Order>, day: int, product: string): real
  {
    if orders == [] then 0.0
    else (if orders[0].date <= day && orders[0].product == product then Total(orders[0]) else 0.0)
         + RevenueUpTo(orders[1..], day, product)
  }

  /** With no order before `day`, the revenue up to `day` is that day's total. */
  lemma {:induction false} RevenueUpToFirstDay(orders: seq<Order>, day: int, product: string)
    requires forall i :: 0 <= i < |orders| ==> orders[i].date >= day
    ensures RevenueUpTo(orders, day, product) == DailyTotal(orders, day, product)
  {
    if orders != [] {
      RevenueUpToFirstDay(orders[1..], day, product);
    }
  }

  /** With no order strictly between `lo` and `hi`, the revenue up to `hi`
      is the revenue up to `lo` plus the total of day `hi`. */
  lemma {:induction false} RevenueUpToNextDay(orders: seq<Order>, lo: int, hi: int, product: string)
    requires lo < hi
    requires forall i :: 0 <= i < |orders| ==> !(lo < orders[i].date < hi)
    ensures RevenueUpTo(orders, hi, product) == RevenueUpTo(orders, lo, product) + DailyTotal(orders, hi, product)
  {
    if orders != [] {
      RevenueUpToNextDay(orders[1..], lo, hi, product);
    }
  }

  /** The day axis lists, in ascending order, days that include every order's day. */
  predicate CoversDays(orders: seq<Order>, days: seq<int>)
  {
    StrictlyIncreasing(days) && forall i :: 0 <= i < |orders| ==> orders[i].date in days
  }

  /** Summing the daily totals of the first `d + 1` days of such an axis
      gives the revenue up to day `d`. */
  lemma {:induction false} RunningSumIsRevenueUpTo(orders: seq<Order>, days: seq<int>, product: string, d: nat)
    requires CoversDays(orders, days) && d < |days|
    ensures Cumulative(orders, days, product, d) == RevenueUpTo(orders, days[d], product)
  {
    if d == 0 {
      forall i | 0 <= i < |orders| ensures orders[i].date >= days[0] {
        assert orders[i].date in days;
      }
      RevenueUpToFirstDay(orders, days[0], product);
    } else {
      RunningSumIsRevenueUpTo(orders, days, product, d - 1);
      forall i | 0 <= i < |orders| ensures !(days[d - 1] < orders[i].date < days[d]) {
        assert orders[i].date in days;
      }
      RevenueUpToNextDay(orders, days[d - 1], days[d], product);
    }
  }

  /** Every cell of the cumulative table is the revenue of its product from
      all orders placed on or before its day. */
  lemma CumulativeIsRevenueUpTo(orders: seq<Order>, columns: seq<string>, d: nat, j: nat)
    requires d < |BuildCumulative(orders, columns).0| && j < |columns|
    ensures BuildCumulative(orders, columns).0[d][j] ==
            RevenueUpTo(orders, BuildCumulative(orders, columns).1[d], columns[j])
  {
    var days := OrderDays(orders);
    forall i | 0 <= i < |orders| ensures orders[i].date in days {
    }
    RunningSumIsRevenueUpTo(orders, days, columns[j], d);
  }

  /** A day's total is non-negative when no order line has a negative total. */
  lemma {:induction false} DailyTotalNonNegative(orders: seq<Order>, day: int, product: string)
    requires forall i :: 0 <= i < |orders| ==> Total(orders[i]) >= 0.0
    ensures DailyTotal(orders, day, product) >= 0.0
  {
    if orders != [] {
      DailyTotalNonNegative(orders[1..], day, product);
    }
  }

  /** With non-negative order totals, every column of the cumulative table
      is non-decreasing from one day to the next. */
  lemma ColumnsNonDecreasing(orders: seq<Order>, columns: seq<string>, d: nat, j: nat)
    requires forall i :: 0 <= i < |orders| ==> Total(orders[i]) >= 0.0
    requires d + 1 < |BuildCumulative(orders, columns).0| && j < |columns|
    ensures BuildCumulative(orders, columns).0[d][j] <= BuildCumulative(orders, columns).0[d + 1][j]
  {
    DailyTotalNonNegative(orders, OrderDays(orders)[d + 1], columns[j]);
  }

  // ---------------------------------------------------------------------
  // Colours and labels
  // ---------------------------------------------------------------------

  /** `make_color_map`: label `i` gets palette entry `i mod |palette|`; a
      label listed twice keeps the colour of its last position. */
  method MakeColorMap(labels: seq<string>, palette: seq<string>) returns (colors: map<string, string>)
    requires |palette| > 0
    ensures forall l :: l in colors <==> l in labels
    ensures forall i :: 0 <= i < |labels| && (forall j :: i < j < |labels| ==> labels[j] != labels[i]) ==>
              colors[labels[i]] == palette[i % |palette|]
  {
    colors := map[];
    var i := 0;
    while i < |labels|
      invariant 0 <= i <= |labels|
      invariant forall l :: l in colors <==> l in labels[..i]
      invariant forall k :: 0 <= k < i && (forall j :: k < j < i ==> labels[j] != labels[k]) ==>
                  colors[labels[k]] == palette[k % |palette|]
    {
      colors := colors[labels[i] := palette[i % |palette|]];
      i := i + 1;
      assert labels[..i] == labels[..i - 1] + [labels[i - 1]];
    }
    assert labels[..i] == labels;
  }

  /** Three decimal digits, zero-padded. */
  function Pad3(m: nat): (r: string)
    requires m < 1000
    ensures |r| == 3 && forall i :: 0 <= i < 3 ==> '0' <= r[i] <= '9'
  {
    [('0' as int + m / 100) as char, ('0' as int + m / 10 % 10) as char, ('0' as int + m % 10) as char]
  }

  /** The digits of `n` with a "." before every group of three from the right. */
  function Grouped(n: nat): (r: string)
    ensures |r| >= 1 && '0' <= r[0] <= '9'
    decreases n
  {
    if n < 1000 then Digits(n) else Grouped(n / 1000) + "." + Pad3(n % 1000)
  }

  /** The string with its "." characters removed. */
  function RemoveDots(s: string): (r: string)
    ensures forall c :: c in r ==> c in s && c != '.'
  {
    if s == [] then []
    else (if s[0] == '.' then [] else [s[0]]) + RemoveDots(s[1..])
  }

  lemma {:induction false} RemoveDotsAppend(a: string, b: string)
    ensures RemoveDots(a + b) == RemoveDots(a) + RemoveDots(b)
    decreases |a|
  {
    if a != [] {
      assert (a + b)[0] == a[0] && (a + b)[1..] == a[1..] + b;
      RemoveDotsAppend(a[1..], b);
    } else {
      assert a + b == b;
    }
  }

  lemma {:induction false} RemoveDotsOfDigits(s: string)
    requires forall i :: 0 <= i < |s| ==> '0' <= s[i] <= '9'
    ensures RemoveDots(s) == s
  {
    if s != [] {
      RemoveDotsOfDigits(s[1..]);
    }
  }

  /** The last three digits of a number of four or more digits. */
  lemma DigitsSplit(n: nat)
    requires n >= 1000
    ensures Digits(n) == Digits(n / 1000) + Pad3(n % 1000)
  {
    var q, r := n / 1000, n % 1000;
    assert n / 10 == 100 * q + r / 10;
    assert n / 10 / 10 == 10 * q + r / 100;
    assert n / 10 / 10 / 10 == q;
    assert n % 10 == r % 10;
    assert n / 10 % 10 == r / 10 % 10;
    assert n / 10 / 10 % 10 == r / 100;
    calc {
      Digits(n);
      Digits(n / 10) + [('0' as int + n % 10) as char];
      Digits(n / 10 / 10) + [('0' as int + n / 10 % 10) as char] + [('0' as int + n % 10) as char];
      Digits(q) + [('0' as int + n / 10 / 10 % 10) as char] + [('0' as int + n / 10 % 10) as char]
        + [('0' as int + n % 10) as char];
    }
  }

  /** Removing the separators gives back the plain digits of `n`, so the
      label reads as `n`. */
  lemma {:induction false} GroupedDigits(n: nat)
    ensures RemoveDots(Grouped(n)) == Digits(n)
    decreases n
  {
    if n >= 1000 {
      var g, p := Grouped(n / 1000), Pad3(n % 1000);
      GroupedDigits(n / 1000);
      RemoveDotsAppend(g + ".", p);
      RemoveDotsAppend(g, ".");
      RemoveDotsOfDigits(p);
      DigitsSplit(n);
      assert RemoveDots(".") == [];
      calc {
        RemoveDots(Grouped(n));
        RemoveDots(g + "." + p);
        RemoveDots(g + ".") + RemoveDots(p);
        RemoveDots(g) + RemoveDots(".") + p;
        Digits(n / 1000) + p;
        Digits(n);
      }
    } else {
      RemoveDotsOfDigits(Digits(n));
    }
  }

  /** Zero or more groups, each a "." followed by exactly three digits. */
  predicate DotGroups(s: string)
    decreases |s|
  {
    s == [] ||
    (|s| >= 4 && s[0] == '.' && '0' <= s[1] <= '9' && '0' <= s[2] <= '9' && '0' <= s[3] <= '9'
     && DotGroups(s[4..]))
  }

  lemma {:induction false} DotGroupsAppend(a: string, p: string)
    requires DotGroups(a) && |p| == 3 && forall i :: 0 <= i < 3 ==> '0' <= p[i] <= '9'
    ensures DotGroups(a + "." + p)
    decreases |a|
  {
    if a == [] {
      assert a + "." + p == ['.', p[0], p[1], p[2]];
    } else {
      DotGroupsAppend(a[4..], p);
      assert (a + "." + p)[4..] == a[4..] + "." + p;
    }
  }

  /** The value of the leftmost group: what is left of `n` after dropping
      whole groups of three digits from the right. */
  function LeadingGroup(n: nat): (m: nat)
    ensures m < 1000
    ensures n >= 1 ==> m >= 1
    decreases n
  {
    if n < 1000 then n else LeadingGroup(n / 1000)
  }

  lemma DigitsBelowThousand(m: nat)
    requires m < 1000
    ensures |Digits(m)| <= 3
  {
    if m >= 10 {
      assert Digits(m) == Digits(m / 10) + [('0' as int + m % 10) as char];
      if m / 10 >= 10 {
        assert Digits(m / 10) == Digits(m / 10 / 10) + [('0' as int + m / 10 % 10) as char];
      }
    }
  }

  /** The shape of a grouped label: a leading group of one to three digits
      (the digits of `LeadingGroup(n)`, so no leading zero unless `n` is 0),
      then groups of a "." and exactly three digits up to the end. */
  lemma {:induction false} GroupedShape(n: nat)
    ensures 1 <= |Digits(LeadingGroup(n))| <= 3
    ensures |Digits(LeadingGroup(n))| <= |Grouped(n)|
    ensures Grouped(n)[..|Digits(LeadingGroup(n))|] == Digits(LeadingGroup(n))
    ensures DotGroups(Grouped(n)[|Digits(LeadingGroup(n))|..])
    decreases n
  {
    var lead := Digits(LeadingGroup(n));
    DigitsBelowThousand(LeadingGroup(n));
    if n < 1000 {
      assert Grouped(n)[|lead|..] == [];
    } else {
      var g, p := Grouped(n / 1000), Pad3(n % 1000);
      GroupedShape(n / 1000);
      assert Grouped(n) == g + "." + p;
      assert Grouped(n)[..|lead|] == g[..|lead|];
      assert Grouped(n)[|lead|..] == g[|lead|..] + "." + p;
      DotGroupsAppend(g[|lead|..], p);
    }
  }

  /** `format_currency` on a whole amount: grouped digits, a leading "-" for
      debts, then " ₺". */
  function FormatCurrency(x: int): (r: string)
    ensures |r| >= 3 && r[|r| - 2..] == " ₺"
    ensures (r[0] == '-') <==> x < 0
    ensures r[(if x < 0 then 1 else 0)..|r| - 2] == Grouped(if x < 0 then -x else x)
    ensures RemoveDots(r[(if x < 0 then 1 else 0)..|r| - 2]) == Digits(if x < 0 then -x else x)
  {
    var sign, a := (if x < 0 then "-" else ""), (if x < 0 then -x else x);
    GroupedDigits(a);
    assert (sign + Grouped(a) + " ₺")[|sign|..|sign| + |Grouped(a)|] == Grouped(a);
    sign + Grouped(a) + " ₺"
  }
}
