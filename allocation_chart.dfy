/** The stacked bar chart of the dashboard (frontend/src/components/AllocationChart.tsx):
    the rows pivoted into one point per date holding each key's cost, the bar keys
    in first-seen order, the x-axis tick labels and the bar colours. */
module AllocationChart {
  import opened Wrappers
  import opened Records
  import opened Sorting
  import opened Costs
  import opened Window

  /** One chart point: a date and the cost of each key on it. */
  datatype ChartPoint = ChartPoint(date: DateKey, costs: map<string, real>)

  /** The `grouped` record after the rows `rows`: `grouped[d.date][d.namespace] =
      d.totalCost`, a new date getting an empty point first. */
  function Pivot(rows: seq<DailyCost>): (g: Record<DateKey, map<string, real>>)
    ensures g.Valid()
  {
    if rows == [] then Empty()
    else
      var prev := Pivot(rows[..|rows| - 1]);
      var d := rows[|rows| - 1];
      prev.Put(d.date, prev.GetOr(d.date, map[])[d.namespace := d.totalCost])
  }

  /** `Object.values(grouped)`. */
  function Points(g: Record<DateKey, map<string, real>>): (ps: seq<ChartPoint>)
    requires g.Valid()
    ensures |ps| == |g.order|
    ensures forall i :: 0 <= i < |ps| ==> ps[i].date == g.order[i] && ps[i].costs == g.vals[g.order[i]]
  {
    seq(|g.order|, i requires 0 <= i < |g.order| => ChartPoint(g.order[i], g.vals[g.order[i]]))
  }

  /** `(a, b) => a.date.localeCompare(b.date)`. */
  predicate PointLe(a: ChartPoint, b: ChartPoint) {
    DateLe(a.date, b.date)
  }

  lemma PointLeTotalPreorder()
    ensures TotalPreorder(PointLe)
  {
  }

  /** `chartData`: the points sorted by date. */
  function ChartData(rows: seq<DailyCost>): seq<ChartPoint> {
    PointLeTotalPreorder();
    SortBy(Points(Pivot(rows)), PointLe)
  }

  /** The memoised transformation, as the component runs it. */
  method Transform(data: seq<DailyCost>) returns (chartData: seq<ChartPoint>, keys: seq<string>)
    ensures chartData == ChartData(data)
    ensures keys == KeysOf(data)
  {
    var grouped: Record<DateKey, map<string, real>> := Empty();
    var allKeys: seq<string> := [];
    var i := 0;
    while i < |data|
      invariant 0 <= i <= |data|
      invariant grouped == Pivot(data[..i])
      invariant allKeys == KeysOf(data[..i])
    {
      var d := data[i];
      var point := if d.date in grouped.vals then grouped.vals[d.date] else map[];
      grouped := grouped.Put(d.date, point[d.namespace := d.totalCost]);
      if d.namespace !in allKeys {
        allKeys := allKeys + [d.namespace];
      }
      assert data[..i + 1][..i] == data[..i];
      i := i + 1;
    }
    assert data[..i] == data;
    PointLeTotalPreorder();
    chartData := SortBy(Points(grouped), PointLe);
    keys := allKeys;
  }

  /** The cost of the last row with date `date` and key `k`, if any: the value a
      bar segment shows. */
  function LastCost(rows: seq<DailyCost>, date: DateKey, k: string): Option<real> {
    if rows == [] then None
    else if rows[|rows| - 1].date == date && rows[|rows| - 1].namespace == k then Some(rows[|rows| - 1].totalCost)
    else LastCost(rows[..|rows| - 1], date, k)
  }

  /** The pivot has a point for exactly the dates of the rows. */
  lemma {:induction false} PivotDates(rows: seq<DailyCost>, date: DateKey)
    ensures date in Pivot(rows).vals <==> exists i :: 0 <= i < |rows| && rows[i].date == date
  {
    if rows != [] {
      var init := rows[..|rows| - 1];
      PivotDates(init, date);
      assert forall i :: 0 <= i < |init| ==> init[i] == rows[i];
      if exists i :: 0 <= i < |rows| && rows[i].date == date {
        var i :| 0 <= i < |rows| && rows[i].date == date;
        if i < |rows| - 1 {
          assert init[i].date == date;
        }
      }
    }
  }

  /** A key's entry on a date is the cost of the last row for that date and key. */
  lemma {:induction false} PivotEntry(rows: seq<DailyCost>, date: DateKey, k: string)
    requires date in Pivot(rows).vals
    ensures k in Pivot(rows).vals[date] <==> LastCost(rows, date, k).Some?
    ensures k in Pivot(rows).vals[date] ==> Pivot(rows).vals[date][k] == LastCost(rows, date, k).value
  {
    var init := rows[..|rows| - 1];
    var d := rows[|rows| - 1];
    var prev := Pivot(init);
    if d.date == date && d.namespace == k {
    } else if date in prev.vals {
      PivotEntry(init, date, k);
    } else {
      assert d.date == date;
      PivotDates(init, date);
      LastCostSomeIff(init, date, k);
    }
  }

  /** The chart has one point per distinct date of the rows, in date order. */
  lemma ChartOrdered(rows: seq<DailyCost>)
    ensures var cd := ChartData(rows);
      forall i, j :: 0 <= i < j < |cd| ==> DateLe(cd[i].date, cd[j].date) && cd[i].date != cd[j].date
  {
    PointLeTotalPreorder();
    var g := Pivot(rows);
    KeysInOrder(g);
    PermKeepsKeysDistinct(Points(g), ChartData(rows), (p: ChartPoint) => p.date);
  }

  /** The points' dates are exactly the rows' dates. */
  lemma ChartDates(rows: seq<DailyCost>)
    ensures var cd := ChartData(rows);
      && (forall i :: 0 <= i < |cd| ==> exists r :: 0 <= r < |rows| && rows[r].date == cd[i].date)
      && (forall r :: 0 <= r < |rows| ==> exists i :: 0 <= i < |cd| && cd[i].date == rows[r].date)
  {
    var cd := ChartData(rows);
    PointsArePivot(rows);
    forall i | 0 <= i < |cd|
      ensures exists r :: 0 <= r < |rows| && rows[r].date == cd[i].date
    {
      PivotDates(rows, cd[i].date);
    }
    forall r | 0 <= r < |rows|
      ensures exists i :: 0 <= i < |cd| && cd[i].date == rows[r].date
    {
      PivotDates(rows, rows[r].date);
    }
  }

  /** Each point's costs are the last rows' costs for its date. */
  lemma ChartCosts(rows: seq<DailyCost>)
    ensures var cd := ChartData(rows);
      forall i, k :: 0 <= i < |cd| ==>
        && (k in cd[i].costs <==> LastCost(rows, cd[i].date, k).Some?)
        && (k in cd[i].costs ==> cd[i].costs[k] == LastCost(rows, cd[i].date, k).value)
  {
    var cd := ChartData(rows);
    PointsArePivot(rows);
    forall i, k | 0 <= i < |cd|
      ensures k in cd[i].costs <==> LastCost(rows, cd[i].date, k).Some?
      ensures k in cd[i].costs ==> cd[i].costs[k] == LastCost(rows, cd[i].date, k).value
    {
      PivotEntry(rows, cd[i].date, k);
    }
  }

  /** Sorting only reorders the pivot's points: every point is the pivot entry of
      its date, and every date of the pivot has a point. */
  lemma PointsArePivot(rows: seq<DailyCost>)
    ensures var g := Pivot(rows); var cd := ChartData(rows);
      && (forall i :: 0 <= i < |cd| ==> cd[i].date in g.vals && cd[i].costs == g.vals[cd[i].date])
      && (forall date :: date in g.vals ==> exists i :: 0 <= i < |cd| && cd[i].date == date)
  {
    var g := Pivot(rows);
    var cd := ChartData(rows);
    forall i | 0 <= i < |cd|
      ensures cd[i].date in g.vals && cd[i].costs == g.vals[cd[i].date]
    {
      PointIsPivotEntry(rows, i);
    }
    forall date | date in g.vals
      ensures exists i :: 0 <= i < |cd| && cd[i].date == date
    {
      DateHasPoint(rows, date);
    }
  }

  lemma PointIsPivotEntry(rows: seq<DailyCost>, i: nat)
    requires i < |ChartData(rows)|
    ensures var g, p := Pivot(rows), ChartData(rows)[i];
      p.date in g.vals && p.costs == g.vals[p.date]
  {
    PointLeTotalPreorder();
    var g := Pivot(rows);
    var ps := Points(g);
    var cd := ChartData(rows);
    KeysInOrder(g);
    assert cd[i] in multiset(ps);
    var j :| 0 <= j < |ps| && ps[j] == cd[i];
  }

  lemma DateHasPoint(rows: seq<DailyCost>, date: DateKey)
    requires date in Pivot(rows).vals
    ensures exists i :: 0 <= i < |ChartData(rows)| && ChartData(rows)[i].date == date
  {
    PointLeTotalPreorder();
    var g := Pivot(rows);
    var ps := Points(g);
    var cd := ChartData(rows);
    KeysInOrder(g);
    var j :| 0 <= j < |g.order| && g.order[j] == date;
    assert ps[j] in multiset(cd);
    var i :| 0 <= i < |cd| && cd[i] == ps[j];
  }

  /** A date's point lists exactly the keys that have a row on that date. */
  lemma {:induction false} LastCostSomeIff(rows: seq<DailyCost>, date: DateKey, k: string)
    ensures LastCost(rows, date, k).Some? <==>
      exists i :: 0 <= i < |rows| && rows[i].date == date && rows[i].namespace == k
  {
    if rows != [] {
      var init := rows[..|rows| - 1];
      LastCostSomeIff(init, date, k);
      assert forall i :: 0 <= i < |init| ==> init[i] == rows[i];
    }
  }

  /** Whether `t` occurs in `s` (`String.prototype.includes`). */
  predicate Includes(s: string, t: string)
    decreases |s|
  {
    |t| <= |s| && (s[..|t|] == t || Includes(s[1..], t))
  }

  /** A text without the first character of `t` does not include `t`. */
  lemma {:induction false} ExcludesWithoutFirst(s: string, t: string)
    requires |t| > 0 && forall i :: 0 <= i < |s| ==> s[i] != t[0]
    ensures !Includes(s, t)
    decreases |s|
  {
    if |t| <= |s| {
      assert s[..|t|][0] == s[0];
      ExcludesWithoutFirst(s[1..], t);
    }
  }

  /** The x-axis `tickFormatter`. */
  function TickLabel(s: string): (tick: string)
    ensures Includes(s, "Total") ==> tick == "Total"
    ensures !Includes(s, "Total") && |s| > 5 ==> tick == s[5..]
    ensures !Includes(s, "Total") && |s| <= 5 ==> tick == s
  {
    if Includes(s, "Total") then "Total"
    else if |s| > 5 then s[5..] else s
  }

  /** A `YYYY-MM-DD` date. */
  predicate IsoDate(s: string) {
    && |s| == 10 && s[4] == '-' && s[7] == '-'
    && forall i :: 0 <= i < 10 && i != 4 && i != 7 ==> IsDigit(s[i])
  }

  /** A day's tick shows its `MM-DD`. */
  lemma IsoDateTick(s: string)
    requires IsoDate(s)
    ensures TickLabel(s) == s[5..] && |TickLabel(s)| == 5
    ensures TickLabel(s)[2] == '-'
  {
    ExcludesWithoutFirst(s, "Total");
  }

  /** An accumulated row's `Total (<window>)` tick shows `Total`. */
  lemma TotalTick(window: string)
    ensures TickLabel("Total (" + window + ")") == "Total"
  {
    var s := "Total (" + window + ")";
    assert s[..5] == "Total";
  }

  /** The bar colours. */
  const Palette: seq<string> := ["#3b82f6", "#10b981", "#f59e0b", "#8b5cf6", "#ec4899", "#6366f1", "#14b8a6", "#f43f5e"]

  /** `colors[idx % colors.length]`: the colour of the `idx`-th key. */
  function Colour(idx: nat): (c: string)
    ensures c in Palette
  {
    Palette[idx % |Palette|]
  }

  /** Keys fewer than eight places apart get different colours; the ninth key
      repeats the first one's colour. */
  lemma ColoursCycle(i: nat, j: nat)
    ensures i < j < i + |Palette| ==> Colour(i) != Colour(j)
    ensures Colour(i + |Palette|) == Colour(i)
  {
    if i < j < i + |Palette| {
      ModDiffers(i, j);
      PaletteDistinct(i % 8, j % 8);
    }
    ModShift(i);
  }

  /** Numbers less than eight apart leave different remainders by eight. */
  lemma ModDiffers(i: nat, j: nat)
    requires i < j < i + 8
    ensures i % 8 != j % 8
  {
  }

  lemma ModShift(i: nat)
    ensures (i + 8) % 8 == i % 8
  {
  }

  lemma PaletteDistinct(a: nat, b: nat)
    requires a < 8 && b < 8 && a != b
    ensures Palette[a] != Palette[b]
  {
    assert Palette[a][1..3] != Palette[b][1..3] || Palette[a][3..] != Palette[b][3..];
  }
}
