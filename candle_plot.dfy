/**
 * Financial candle (open/low/high/close) plots.
 *
 * A `CandleDataAdapter` interprets the five data fields of a plot (arrays,
 * column names of a data source, or null); `CandlePlot.Draw` turns the
 * points it yields into one glyph per point: a wick from low to high and
 * either open/close ticks (Stick style) or an open-close box (Filled style).
 */
module Candles {
  import opened Numbers
  import opened Exceptions
  import opened DataSources
  import opened Drawing

  /** How one data field of a plot is given. */
  datatype Data =
    | Null
    | Doubles(ds: seq<Num>)            // a double[]
    | Objects(vs: seq<Value>)          // an array of any other element type
    | Column(name: string)             // a column name of the data source
    | OtherObject                      // any other object: not an array, list or string

  datatype PointOLHC = PointOLHC(x: Num, open: Num, low: Num, high: Num, close: Num)

  predicate IsArray(d: Data) { d.Doubles? || d.Objects? }

  /** `((Array) d).Length` */
  function ArrayLength(d: Data): (r: Result<nat>)
    ensures r.Success? <==> IsArray(d)
    ensures d.Null? ==> r == Failure(NullReference)
    ensures !IsArray(d) && !d.Null? ==> r == Failure(InvalidCast)
  {
    match d
    case Doubles(ds) => Success(|ds|)
    case Objects(vs) => Success(|vs|)
    case Null => Failure(NullReference)
    case _ => Failure(InvalidCast)
  }

  /** `((Array) d).GetValue(i)` */
  function ArrayElement(d: Data, i: nat): (r: Result<Value>)
    requires IsArray(d)
    ensures r.Success? <==> i < ArrayLength(d).value
  {
    match d
    case Doubles(ds) => if i < |ds| then Success(Number(ds[i])) else Failure(IndexOutOfRange)
    case Objects(vs) => if i < |vs| then Success(vs[i]) else Failure(IndexOutOfRange)
  }

  /** `Utils.ToDouble(((Array) d).GetValue(i))` */
  function ArrayDouble(d: Data, i: nat): (r: Result<Num>)
    requires IsArray(d)
    ensures r.Success? <==> i < ArrayLength(d).value && !ArrayElement(d, i).value.Text?
    ensures r.Success? ==> r.value == ToDouble(ArrayElement(d, i).value).value
  {
    var v :- ArrayElement(d, i);
    ToDouble(v)
  }

  /** `(d as double[])[i]`, where a field that is not a double[] reads as null. */
  function DoubleAt(d: Data, i: nat): (r: Result<Num>)
    ensures r.Success? <==> d.Doubles? && i < |d.ds|
    ensures r.Success? ==> r.value == d.ds[i]
  {
    match d
    case Doubles(ds) => if i < |ds| then Success(ds[i]) else Failure(IndexOutOfRange)
    case _ => Failure(NullReference)
  }

  /** `(string) d`: the column name, None for null. */
  function ColumnName(d: Data): (r: Result<Option<string>>)
    ensures r.Success? <==> (d.Column? || d.Null?)
  {
    match d
    case Column(name) => Success(Some(name))
    case Null => Success(None)
    case _ => Failure(InvalidCast)
  }

  /** `Utils.ToDouble(row[(string) d])` */
  function RowField(row: Row, d: Data): Result<Num> {
    var column :- ColumnName(d);
    match column
    case None => Failure(ArgumentError)
    case Some(name) => var v :- Cell(row, name); ToDouble(v)
  }

  /** `(IList) d`: its elements, None for null. */
  function AsList(d: Data): (r: Result<Option<seq<Value>>>)
    ensures r.Success? <==> (IsArray(d) || d.Null?)
    ensures IsArray(d) ==> r.value.Some? && |r.value.value| == ArrayLength(d).value
  {
    match d
    case Null => Success(None)
    case Doubles(ds) => Success(Some(seq(|ds|, k requires 0 <= k < |ds| => Number(ds[k]))))
    case Objects(vs) => Success(Some(vs))
    case _ => Failure(InvalidCast)
  }

  /** The minimum and maximum helpers `Utils.ArrayMinMax` and
      `Utils.RowArrayMinMax`, which are not part of this model. */
  datatype MinMax = MinMax(
    ofList: Option<seq<Value>> -> (real, real),
    ofColumn: (seq<Row>, Option<string>) -> (real, real))

  const SameLengthMessage := "open and close arrays are not of same length"

  /** The smallest of the consecutive differences of `xs`. */
  function MinGap(xs: seq<int>): int
    requires |xs| >= 2
  {
    var gap := xs[1] - xs[0];
    if |xs| == 2 then gap
    else var rest := MinGap(xs[1..]); if rest < gap then rest else gap
  }

  /** MinGap is the least consecutive difference and is one of them. */
  lemma {:induction false} MinGapIsLeastGap(xs: seq<int>)
    requires |xs| >= 2
    ensures forall k :: 0 <= k < |xs| - 1 ==> MinGap(xs) <= xs[k + 1] - xs[k]
    ensures exists k :: 0 <= k < |xs| - 1 && MinGap(xs) == xs[k + 1] - xs[k]
  {
    if |xs| == 2 {
      assert MinGap(xs) == xs[1] - xs[0];
    } else {
      var tail := xs[1..];
      MinGapIsLeastGap(tail);
      assert forall k :: 1 <= k < |xs| - 1 ==> xs[k + 1] - xs[k] == tail[k] - tail[k - 1];
      var j :| 0 <= j < |tail| - 1 && MinGap(tail) == tail[j + 1] - tail[j];
      assert tail[j + 1] - tail[j] == xs[j + 2] - xs[j + 1];
      if MinGap(tail) < xs[1] - xs[0] {
        assert MinGap(xs) == xs[(j + 1) + 1] - xs[j + 1];
      } else {
        assert MinGap(xs) == xs[1] - xs[0];
      }
    }
  }

  function Min(x: int, y: int): int { if x < y then x else y }

  lemma MinGapOfThree(a: int, b: int, c: int)
    ensures MinGap([a, b, c]) == Min(b - a, c - b)
  {
    assert [a, b, c][1..] == [b, c];
  }

  lemma MinGapOfFour(a: int, b: int, c: int, d: int)
    ensures MinGap([a, b, c, d]) == Min(Min(b - a, c - b), d - c)
  {
    assert [a, b, c, d][1..] == [b, c, d];
    MinGapOfThree(b, c, d);
  }

  /** The smallest abscissa step SuggestXAxis widens the range by, from the
      first (up to three) abscissa values: |x1 - x0| and |x2 - x1|. */
  function MinStep(xs: seq<Num>): Num {
    if |xs| < 2 then Val(0.0)
    else
      var d1 := Abs(Sub(xs[1], xs[0]));
      if |xs| == 2 then d1
      else var d2 := Abs(Sub(xs[2], xs[1])); if Less(d2, d1) then d2 else d1
  }

  /** For finite values the step is the smaller of the first two absolute
      differences (zero for fewer than two values). */
  lemma MinStepIsSmallestAbsoluteStep(xs: seq<Num>)
    requires forall k :: 0 <= k < |xs| ==> xs[k].Val?
    requires |xs| <= 3
    ensures MinStep(xs).Val? && MinStep(xs).r >= 0.0
    ensures |xs| < 2 ==> MinStep(xs) == Val(0.0)
    ensures |xs| >= 2 ==> MinStep(xs).r <= RealAbs(xs[1].r - xs[0].r)
    ensures |xs| == 3 ==> MinStep(xs).r <= RealAbs(xs[2].r - xs[1].r)
    ensures |xs| == 2 ==> MinStep(xs).r == RealAbs(xs[1].r - xs[0].r)
    ensures |xs| == 3 ==> (MinStep(xs).r == RealAbs(xs[1].r - xs[0].r) ||
                           MinStep(xs).r == RealAbs(xs[2].r - xs[1].r))
  {
  }

  /** How many abscissa values SuggestXAxis reads to find its step: none
      for fewer than two values, else the first two or three. */
  function StepSampleSize(n: nat): nat {
    if n <= 1 then 0 else if n == 2 then 2 else 3
  }

  /** `CandleDataAdapter`: the five data fields of a plot and the rows of
      its data source, if it has one. */
  datatype CandleDataAdapter = CandleDataAdapter(
    abscissa: Data, open: Data, low: Data, high: Data, close: Data,
    rows: Option<seq<Row>>)
  {
    /** The fast path: the open, low, high and abscissa fields are double
        arrays.  As in the source, low is tested twice and close never. */
    predicate UseDoublesArrays() {
      open.Doubles? && low.Doubles? && high.Doubles? && low.Doubles? && abscissa.Doubles?
    }

    /** `Count` */
    function Count(): (r: Result<nat>)
      ensures UseDoublesArrays() ==> r == Success(|open.ds|)
      ensures !UseDoublesArrays() && open.Null? ==> r == Success(0)
      ensures !UseDoublesArrays() && !open.Null? && rows.Some? ==> r == Success(|rows.value|)
      ensures !UseDoublesArrays() && rows.None? && IsArray(open) ==>
                (r.Success? <==> ArrayLength(close) == ArrayLength(low) == ArrayLength(high) == ArrayLength(open)) &&
                (r.Success? ==> r.value == ArrayLength(open).value)
      // the lengths are read in the order close, low, high, each cast to Array
      ensures !UseDoublesArrays() && rows.None? && IsArray(open) && IsArray(close) && IsArray(low) && IsArray(high) ==>
                (r.Failure? ==> r == Failure(NPlotException(SameLengthMessage)))
      ensures !UseDoublesArrays() && rows.None? && IsArray(open) && !IsArray(close) ==>
                r == Failure(ArrayLength(close).error)
      ensures !UseDoublesArrays() && rows.None? && IsArray(open) && r.Failure? ==>
                r.error in {NPlotException(SameLengthMessage), NullReference, InvalidCast}
      ensures !UseDoublesArrays() && rows.None? && !open.Null? && !IsArray(open) ==>
                r == Failure(NPlotException("data not in correct format"))
    {
      if UseDoublesArrays() then Success(|open.ds|)
      else if open.Null? then Success(0)
      else if rows.Some? then Success(|rows.value|)
      else if IsArray(open) then
        var size := ArrayLength(open).value;
        var c :- ArrayLength(close);
        if size != c then Failure(NPlotException(SameLengthMessage))
        else
          var l :- ArrayLength(low);
          if size != l then Failure(NPlotException(SameLengthMessage))
          else
            var h :- ArrayLength(high);
            if size != h then Failure(NPlotException(SameLengthMessage))
            else Success(size)
      else Failure(NPlotException("data not in correct format"))
    }

    /** The indexer `this[i]`. */
    function At(i: nat): (r: Result<PointOLHC>)
      ensures UseDoublesArrays() ==>
                (r.Success? <==> close.Doubles? && i < |abscissa.ds| && i < |open.ds| && i < |low.ds| &&
                                 i < |high.ds| && i < |close.ds|)
      ensures UseDoublesArrays() && r.Success? ==>
                r.value == PointOLHC(abscissa.ds[i], open.ds[i], low.ds[i], high.ds[i], close.ds[i])
      ensures !UseDoublesArrays() && rows.Some? && r.Success? ==> i < |rows.value|
      ensures !UseDoublesArrays() && rows.None? && !(IsArray(abscissa) && IsArray(open) && IsArray(low) && IsArray(high) && IsArray(close)) ==>
                r == Failure(NPlotException("not implemented yet"))
    {
      if UseDoublesArrays() then
        var x :- DoubleAt(abscissa, i);
        var o :- DoubleAt(open, i);
        var l :- DoubleAt(low, i);
        var h :- DoubleAt(high, i);
        var c :- DoubleAt(close, i);
        Success(PointOLHC(x, o, l, h, c))
      else if rows.Some? then
        if i >= |rows.value| then Failure(IndexOutOfRange)
        else
          var row := rows.value[i];
          var x :- RowField(row, abscissa);
          var o :- RowField(row, open);
          var l :- RowField(row, low);
          var h :- RowField(row, high);
          var c :- RowField(row, close);
          Success(PointOLHC(x, o, l, h, c))
      else if IsArray(abscissa) && IsArray(open) && IsArray(low) && IsArray(high) && IsArray(close) then
        var x :- ArrayDouble(abscissa, i);
        var o :- ArrayDouble(open, i);
        var l :- ArrayDouble(low, i);
        var h :- ArrayDouble(high, i);
        var c :- ArrayDouble(close, i);
        Success(PointOLHC(x, o, l, h, c))
      else Failure(NPlotException("not implemented yet"))
    }

    /** Number of abscissa values SuggestXAxis sees: the rows of the data
        source, or the length of the abscissa list (null has none to count). */
    function AbscissaCount(): (r: Result<nat>)
      ensures rows.Some? ==> r == Success(|rows.value|)
      ensures rows.None? ==> (r.Success? <==> IsArray(abscissa))
    {
      if rows.Some? then Success(|rows.value|)
      else
        var list :- AsList(abscissa);
        if list.None? then Failure(NullReference) else Success(|list.value|)
    }

    /** The k-th abscissa value as SuggestXAxis reads it. */
    function AbscissaAt(k: nat): Result<Value> {
      if rows.Some? then
        if k >= |rows.value| then Failure(IndexOutOfRange)
        else
          var column :- ColumnName(abscissa);
          if column.None? then Failure(ArgumentError) else Cell(rows.value[k], column.value)
      else if IsArray(abscissa) then ArrayElement(abscissa, k)
      else if abscissa.Null? then Failure(NullReference)
      else Failure(InvalidCast)
    }

    /** The first k abscissa values converted to doubles, in order. */
    function AbscissaDoubles(k: nat): (r: Result<seq<Num>>)
      ensures r.Success? ==> |r.value| == k
    {
      if k == 0 then Success([])
      else
        var xs :- AbscissaDoubles(k - 1);
        var v :- AbscissaAt(k - 1);
        var x :- ToDouble(v);
        Success(xs + [x])
    }

    /** The abscissa minimum and maximum the min/max helper reports. */
    function AbscissaMinMax(mm: MinMax): Result<(real, real)> {
      if rows.Some? then
        var column :- ColumnName(abscissa);
        Success(mm.ofColumn(rows.value, column))
      else
        var list :- AsList(abscissa);
        Success(mm.ofList(list))
    }

    /** `SuggestXAxis()`: the abscissa range [min, max] widened on both
        sides by half the smallest of the first two steps, on a date/time
        axis exactly when the first abscissa value is a DateTime. */
    function SuggestXAxis(mm: MinMax): (r: Result<Axis>)
      ensures r.Success? ==>
                AbscissaAt(0).Success? && (r.value.kind == DateTime <==> AbscissaAt(0).value.Date?)
      ensures AbscissaMinMax(mm).Success? && AbscissaCount() == Success(0) ==> r == Failure(IndexOutOfRange)
      ensures r.Success? && r.value.worldMin.Val? ==>
                var range := AbscissaMinMax(mm).value;
                r.value.worldMax.Val? && r.value.worldMin.r <= range.0 && range.1 <= r.value.worldMax.r &&
                range.0 - r.value.worldMin.r == r.value.worldMax.r - range.1
    {
      var range :- AbscissaMinMax(mm);
      var n :- AbscissaCount();
      // the first two steps, |x1 - x0| and |x2 - x1|, of the values there are
      var xs :- AbscissaDoubles(StepSampleSize(n));
      if n == 0 then Failure(IndexOutOfRange)
      else
        var first :- AbscissaAt(0);
        var step := MinStep(xs);
        Success(Axis(if first.Date? then DateTime else Linear,
                     Sub(Val(range.0), Half(step)), Add(Val(range.1), Half(step))))
    }

    /** `SuggestYAxis()`: the linear axis from the smallest low value to the
        largest high value, widened by `IncreaseRange(0.08)` (the axis
        operation is not part of this model). */
    function SuggestYAxis(mm: MinMax, increaseRange: (Axis, real) -> Axis): (r: Result<Axis>)
      ensures r.Success? <==> LowHighRange(mm).Success?
      ensures r.Success? ==>
                r.value == increaseRange(Axis(Linear, Val(LowHighRange(mm).value.0), Val(LowHighRange(mm).value.1)), 0.08)
    {
      var range :- LowHighRange(mm);
      Success(increaseRange(Axis(Linear, Val(range.0), Val(range.1)), 0.08))
    }

    /** The minimum of the low values and the maximum of the high values. */
    function LowHighRange(mm: MinMax): Result<(real, real)> {
      if rows.None? then
        var lows :- AsList(low);
        var highs :- AsList(high);
        Success((mm.ofList(lows).0, mm.ofList(highs).1))
      else
        var lowColumn :- ColumnName(low);
        var highColumn :- ColumnName(high);
        Success((mm.ofColumn(rows.value, lowColumn).0, mm.ofColumn(rows.value, highColumn).1))
    }
  }

  /** A suggested x-axis is the helper's abscissa range widened on each
      side by half the step of the first abscissa values. */
  lemma XAxisIsWidenedByHalfTheStep(cd: CandleDataAdapter, mm: MinMax)
    requires cd.SuggestXAxis(mm).Success?
    ensures cd.AbscissaMinMax(mm).Success? && cd.AbscissaCount().Success?
    ensures cd.AbscissaDoubles(StepSampleSize(cd.AbscissaCount().value)).Success?
    ensures var range := cd.AbscissaMinMax(mm).value;
            var step := MinStep(cd.AbscissaDoubles(StepSampleSize(cd.AbscissaCount().value)).value);
            cd.SuggestXAxis(mm).value.worldMin == Sub(Val(range.0), Half(step)) &&
            cd.SuggestXAxis(mm).value.worldMax == Add(Val(range.1), Half(step))
  {
    var range := cd.AbscissaMinMax(mm);
    var n := cd.AbscissaCount();
    assert range.Success? && n.Success?;
    assert cd.AbscissaDoubles(StepSampleSize(n.value)).Success?;
  }

  /** When the first abscissa values are finite, the suggested x-axis is
      the range widened by half the smaller of their first two absolute
      steps, a non-negative amount. */
  lemma XAxisWideningForFiniteSteps(cd: CandleDataAdapter, mm: MinMax, xs: seq<Num>)
    requires cd.SuggestXAxis(mm).Success?
    requires cd.AbscissaCount().Success? && cd.AbscissaDoubles(StepSampleSize(cd.AbscissaCount().value)) == Success(xs)
    requires forall k :: 0 <= k < |xs| ==> xs[k].Val?
    ensures MinStep(xs).Val? && MinStep(xs).r >= 0.0
    ensures cd.AbscissaMinMax(mm).Success?
    ensures cd.SuggestXAxis(mm).value.worldMin == Val(cd.AbscissaMinMax(mm).value.0 - MinStep(xs).r / 2.0)
    ensures cd.SuggestXAxis(mm).value.worldMax == Val(cd.AbscissaMinMax(mm).value.1 + MinStep(xs).r / 2.0)
  {
    XAxisIsWidenedByHalfTheStep(cd, mm);
    MinStepIsSmallestAbsoluteStep(xs);
  }

  /** The adapter constructor: the rows of the data source are resolved
      first, which throws for a source that is neither a DataSet nor a
      DataTable. */
  function NewCandleDataAdapter(source: Source, member: Option<string>,
                                abscissa: Data, open: Data, low: Data, high: Data, close: Data)
    : (r: Result<CandleDataAdapter>)
    ensures r.Success? <==> ResolveRows(source, member).Success?
    ensures r.Success? ==> r.value == CandleDataAdapter(abscissa, open, low, high, close, ResolveRows(source, member).value)
  {
    var rows :- ResolveRows(source, member);
    Success(CandleDataAdapter(abscissa, open, low, high, close, rows))
  }

  /** No point can be read at or past the count the adapter reports. */
  lemma AtFailsPastCount(cd: CandleDataAdapter, i: nat)
    requires cd.Count().Success? && i >= cd.Count().value
    ensures cd.At(i).Failure?
  {
  }

  /** With a data source, point i is the five named fields of row i: it
      is read exactly when every field converts, and is their values. */
  lemma AtReadsRow(cd: CandleDataAdapter, i: nat)
    requires !cd.UseDoublesArrays() && cd.rows.Some?
    ensures i >= |cd.rows.value| ==> cd.At(i) == Failure(IndexOutOfRange)
    ensures i < |cd.rows.value| ==>
              var row := cd.rows.value[i];
              (cd.At(i).Success? <==>
                 RowField(row, cd.abscissa).Success? && RowField(row, cd.open).Success? &&
                 RowField(row, cd.low).Success? && RowField(row, cd.high).Success? &&
                 RowField(row, cd.close).Success?) &&
              (cd.At(i).Success? ==>
                 cd.At(i).value == PointOLHC(RowField(row, cd.abscissa).value, RowField(row, cd.open).value,
                                             RowField(row, cd.low).value, RowField(row, cd.high).value,
                                             RowField(row, cd.close).value))
  {
  }

  /** With five arrays and no data source (and not the fast path), point i
      is the conversion of the five i-th elements: it is read exactly when
      each converts. */
  lemma AtReadsArrays(cd: CandleDataAdapter, i: nat)
    requires !cd.UseDoublesArrays() && cd.rows.None?
    requires IsArray(cd.abscissa) && IsArray(cd.open) && IsArray(cd.low) && IsArray(cd.high) && IsArray(cd.close)
    ensures cd.At(i).Success? <==>
              ArrayDouble(cd.abscissa, i).Success? && ArrayDouble(cd.open, i).Success? &&
              ArrayDouble(cd.low, i).Success? && ArrayDouble(cd.high, i).Success? &&
              ArrayDouble(cd.close, i).Success?
    ensures cd.At(i).Success? ==>
              cd.At(i).value == PointOLHC(ArrayDouble(cd.abscissa, i).value, ArrayDouble(cd.open, i).value,
                                          ArrayDouble(cd.low, i).value, ArrayDouble(cd.high, i).value,
                                          ArrayDouble(cd.close, i).value)
  {
  }

  /** Through a data source, every row below the count is a point when the
      five fields name columns present in each row with numeric values. */
  lemma RowsReadableBelowCount(cd: CandleDataAdapter, i: nat)
    requires cd.rows.Some? && !cd.UseDoublesArrays() && !cd.open.Null?
    requires forall d :: d in [cd.abscissa, cd.open, cd.low, cd.high, cd.close] ==> d.Column?
    requires forall r: Row, d: Data :: r in cd.rows.value && d in [cd.abscissa, cd.open, cd.low, cd.high, cd.close] ==>
               d.name in r && !r[d.name].Text?
    requires i < cd.Count().value
    ensures cd.At(i).Success?
  {
    var names := [cd.abscissa, cd.open, cd.low, cd.high, cd.close];
    var row := cd.rows.value[i];
    assert row in cd.rows.value;
    assert names[0] in names && names[1] in names && names[2] in names && names[3] in names && names[4] in names;
  }

  /** The fast path never looks at whether close is a double array: its
      count is the open length, yet reading any point throws. */
  lemma FastPathIgnoresClose(cd: CandleDataAdapter, i: nat)
    requires cd.UseDoublesArrays() && !cd.close.Doubles?
    requires i < |cd.abscissa.ds| && i < |cd.open.ds| && i < |cd.low.ds| && i < |cd.high.ds|
    ensures cd.Count() == Success(|cd.open.ds|)
    ensures cd.At(i) == Failure(NullReference)
  {
  }

  /** The abscissa pixels of the first k points, in order. */
  function PixelPositions(cd: CandleDataAdapter, xAxis: PhysicalAxis, k: nat): (r: Result<seq<int>>)
    ensures r.Success? ==> |r.value| == k
  {
    if k == 0 then Success([])
    else
      var xs :- PixelPositions(cd, xAxis, k - 1);
      var p :- cd.At(k - 1);
      Success(xs + [xAxis.Pixel(p.x)])
  }

  /** The physical separation of the abscissa values: the smallest signed
      pixel gap between consecutive points among the first four, and 0 for
      fewer than two points. */
  function PhysicalSeparation(cd: CandleDataAdapter, xAxis: PhysicalAxis): Result<int> {
    var n :- cd.Count();
    if n <= 1 then Success(0)
    else
      var xs :- PixelPositions(cd, xAxis, if n < 4 then n else 4);
      Success(MinGap(xs))
  }

  /** With two or more points, the separation is the least gap of the
      pixels of the first k, or their exception. */
  lemma SeparationOfCount(cd: CandleDataAdapter, xAxis: PhysicalAxis, n: nat, k: nat)
    requires cd.Count() == Success(n) && n > 1 && k == (if n < 4 then n else 4)
    ensures PixelPositions(cd, xAxis, k).Failure? ==>
              PhysicalSeparation(cd, xAxis) == Failure(PixelPositions(cd, xAxis, k).error)
    ensures PixelPositions(cd, xAxis, k).Success? ==>
              PhysicalSeparation(cd, xAxis) == Success(MinGap(PixelPositions(cd, xAxis, k).value))
  {
  }

  /** Reads the first (up to four) abscissa pixels one at a time and keeps
      the smallest signed step between neighbours. */
  method CalculatePhysicalSeparation(cd: CandleDataAdapter, xAxis: PhysicalAxis) returns (r: Result<int>)
    ensures r == PhysicalSeparation(cd, xAxis)
  {
    var count := cd.Count();
    if count.Failure? { return Failure(count.error); }
    if count.value <= 1 { return Success(0); }
    ghost var k := if count.value < 4 then count.value else 4;
    SeparationOfCount(cd, xAxis, count.value, k);
    assert PixelPositions(cd, xAxis, 0) == Success([]);
    var xPos1 :- ReadPixel(cd, xAxis, 0, k);
    var xPos2 :- ReadPixel(cd, xAxis, 1, k);
    var minDist := xPos2 - xPos1;
    if count.value > 2 {
      var xPos3 :- ReadPixel(cd, xAxis, 2, k);
      if xPos3 - xPos2 < minDist { minDist := xPos3 - xPos2; }
      if count.value > 3 {
        var xPos4 :- ReadPixel(cd, xAxis, 3, k);
        if xPos4 - xPos3 < minDist { minDist := xPos4 - xPos3; }
        assert k == 4 && PixelPositions(cd, xAxis, k).value == [xPos1, xPos2, xPos3, xPos4];
        MinGapOfFour(xPos1, xPos2, xPos3, xPos4);
      } else {
        assert k == 3 && PixelPositions(cd, xAxis, k).value == [xPos1, xPos2, xPos3];
        MinGapOfThree(xPos1, xPos2, xPos3);
      }
    } else {
      assert k == 2 && PixelPositions(cd, xAxis, k).value == [xPos1, xPos2];
    }
    assert minDist == MinGap(PixelPositions(cd, xAxis, k).value);
    return Success(minDist);
  }

  /** Reading the abscissa pixel of point j of the first k: it extends the
      pixels read so far, or its exception ends the whole scan. */
  method ReadPixel(cd: CandleDataAdapter, xAxis: PhysicalAxis, j: nat, ghost k: nat) returns (r: Result<int>)
    requires j < k && PixelPositions(cd, xAxis, j).Success?
    ensures r.Failure? ==> PixelPositions(cd, xAxis, k) == Failure(r.error)
    ensures r.Success? ==> PixelPositions(cd, xAxis, j + 1) == Success(PixelPositions(cd, xAxis, j).value + [r.value])
  {
    var point := cd.At(j);
    if point.Failure? {
      PixelPositionsStopAt(cd, xAxis, j, k);
      return Failure(point.error);
    }
    return Success(xAxis.Pixel(point.value.x));
  }

  /** When point j cannot be read after the first j were, the pixels of
      any longer prefix cannot be computed either, for the same reason. */
  lemma {:induction false} PixelPositionsStopAt(cd: CandleDataAdapter, xAxis: PhysicalAxis, j: nat, k: nat)
    requires j < k && PixelPositions(cd, xAxis, j).Success? && cd.At(j).Failure?
    ensures PixelPositions(cd, xAxis, k) == Failure(cd.At(j).error)
    decreases k
  {
    if k - 1 > j {
      PixelPositionsStopAt(cd, xAxis, j, k - 1);
    }
  }

  datatype Style = Stick | Filled

  /** A StickWidth of this value is sized from the separation of the points. */
  const AutoScaleStickWidth := 0

  /** The horizontal layout of every stick: the offset of the stick from
      its abscissa pixel, how far ticks and boxes reach to its left, and the
      box width. */
  datatype StickLayout = StickLayout(offset: nat, addAmount: nat, width: nat)

  /** The stick layout for a plot's StickWidth and Centered settings when
      its points are `separation` pixels apart. */
  function Layout(stickWidth: nat, centered: bool, separation: nat): (g: StickLayout)
    ensures g.offset == (if centered then separation / 2 else 0)
    // a box spans addAmount on the left of the stick and as much, or one
    // pixel more, on its right
    ensures 2 * g.addAmount <= g.width <= 2 * g.addAmount + 1
    ensures stickWidth != AutoScaleStickWidth ==> g.width == stickWidth
    // auto-sized sticks take a third of the separation on each side
    ensures stickWidth == AutoScaleStickWidth ==>
              g.width == 2 * g.addAmount && 3 * g.addAmount <= separation < 3 * g.addAmount + 3
  {
    var offset := if centered then separation / 2 else 0;
    if stickWidth == AutoScaleStickWidth then
      var addAmount := separation / 3;
      StickLayout(offset, addAmount, addAmount * 2)
    else StickLayout(offset, stickWidth / 2, stickWidth)
  }

  /** Everything Draw applies to every point. */
  datatype DrawSettings = DrawSettings(
    style: Style, pen: Colour, bullish: Colour, bearish: Colour,
    layout: StickLayout, xAxis: PhysicalAxis, yAxis: PhysicalAxis)
  {
    /** The pixel column of the stick for abscissa x. */
    function Centre(x: Num): int { xAxis.Pixel(x) + layout.offset }

    /** Whether a stick at column c reaches into the horizontal plot area. */
    predicate Visible(c: int) {
      xAxis.physicalMin <= c + layout.addAmount && c - layout.addAmount <= xAxis.physicalMax
    }
  }

  predicate HasNaN(p: PointOLHC) {
    IsNaN(p.open) || IsNaN(p.high) || IsNaN(p.low) || IsNaN(p.close)
  }

  /** The open-close part of a Filled stick whose box starts at column
      `left` and is `width` wide. */
  function Body(pen: Colour, bullish: Colour, bearish: Colour,
                left: int, width: nat, yOpen: int, yClose: int): (r: seq<Command>)
    // the open row below the close row (a rise): a bullish box
    ensures yOpen > yClose ==>
              r == [FillRect(bullish, left, yClose, width, yOpen - yClose),
                    OutlineRect(pen, left, yClose, width, yOpen - yClose)]
    // the open row above the close row (a fall): a bearish box
    ensures yOpen < yClose ==>
              r == [FillRect(bearish, left, yOpen, width, yClose - yOpen),
                    OutlineRect(pen, left, yOpen, width, yClose - yOpen)]
    // a box exactly spans the rows between open and close and is never flat
    ensures yOpen != yClose ==>
              |r| == 2 && r[0].FillRect? && r[0].height > 0 &&
              r[0].y == (if yOpen < yClose then yOpen else yClose) &&
              r[0].y + r[0].height == (if yOpen < yClose then yClose else yOpen)
    ensures yOpen == yClose ==> r == [Line(pen, left, yOpen, left + width, yOpen)]
  {
    if yOpen > yClose then
      [FillRect(bullish, left, yClose, width, yOpen - yClose),
       OutlineRect(pen, left, yClose, width, yOpen - yClose)]
    else if yOpen < yClose then
      [FillRect(bearish, left, yOpen, width, yClose - yOpen),
       OutlineRect(pen, left, yOpen, width, yClose - yOpen)]
    else [Line(pen, left, yOpen, left + width, yOpen)]
  }

  /** What Draw emits for one point. */
  function Glyph(s: DrawSettings, p: PointOLHC): seq<Command>
  {
    if HasNaN(p) then []
    else
      var xPos := s.xAxis.Pixel(p.x);
      var offset, addAmount := s.layout.offset, s.layout.addAmount;
      if xPos + offset + addAmount < s.xAxis.physicalMin || s.xAxis.physicalMax < xPos + offset - addAmount then []
      else
        var yPos1 := s.yAxis.Pixel(p.low);
        var yPos2 := s.yAxis.Pixel(p.high);
        var yPos3 := s.yAxis.Pixel(p.open);
        var yPos4 := s.yAxis.Pixel(p.close);
        var wick := Line(s.pen, xPos + offset, yPos1, xPos + offset, yPos2);
        match s.style
        case Stick =>
          [wick,
           Line(s.pen, xPos - addAmount + offset, yPos3, xPos + offset, yPos3),
           Line(s.pen, xPos + offset, yPos4, xPos + addAmount + offset, yPos4)]
        case Filled =>
          [wick] + Body(s.pen, s.bullish, s.bearish, xPos - addAmount + offset, s.layout.width, yPos3, yPos4)
  }

  /** The glyph of a point: nothing for a NaN value or a stick outside the
      plot area, else the wick, then the ticks or the box. */
  lemma GlyphShape(s: DrawSettings, p: PointOLHC)
    ensures HasNaN(p) ==> Glyph(s, p) == []
    ensures Glyph(s, p) != [] <==> !HasNaN(p) && s.Visible(s.Centre(p.x))
    // the wick from low to high at the stick column
    ensures Glyph(s, p) != [] ==>
              Glyph(s, p)[0] == Line(s.pen, s.Centre(p.x), s.yAxis.Pixel(p.low), s.Centre(p.x), s.yAxis.Pixel(p.high))
    // the open tick on the left of the wick, the close tick on its right
    ensures Glyph(s, p) != [] && s.style == Stick ==>
              var c, a := s.Centre(p.x), s.layout.addAmount;
              Glyph(s, p)[1..] == [Line(s.pen, c - a, s.yAxis.Pixel(p.open), c, s.yAxis.Pixel(p.open)),
                         Line(s.pen, c, s.yAxis.Pixel(p.close), c + a, s.yAxis.Pixel(p.close))]
    ensures Glyph(s, p) != [] && s.style == Filled ==>
              Glyph(s, p)[1..] == Body(s.pen, s.bullish, s.bearish, s.Centre(p.x) - s.layout.addAmount,
                             s.layout.width, s.yAxis.Pixel(p.open), s.yAxis.Pixel(p.close))
  {
  }

  /** The commands Draw emits for points i .. n-1, and the exception that
      stops it at the first point that cannot be read. */
  function DrawFrom(cd: CandleDataAdapter, i: nat, n: nat, s: DrawSettings): (seq<Command>, Option<Error>)
    decreases n - i
  {
    if i >= n then ([], None)
    else
      match cd.At(i)
      case Failure(e) => ([], Some(e))
      case Success(p) =>
        var rest := DrawFrom(cd, i + 1, n, s);
        (Glyph(s, p) + rest.0, rest.1)
  }

  /** One step of DrawFrom: an unreadable point ends the drawing with its
      exception; a readable one contributes its glyph. */
  lemma DrawFromStep(cd: CandleDataAdapter, i: nat, n: nat, s: DrawSettings)
    requires i < n
    ensures cd.At(i).Failure? ==> DrawFrom(cd, i, n, s) == ([], Some(cd.At(i).error))
    ensures cd.At(i).Success? ==>
              DrawFrom(cd, i, n, s) == (Glyph(s, cd.At(i).value) + DrawFrom(cd, i + 1, n, s).0, DrawFrom(cd, i + 1, n, s).1)
  {
  }

  /** Drawing completes exactly when every point is readable, and stops
      with the exception of the first point that is not. */
  lemma {:induction false} DrawStopsAtFirstUnreadablePoint(cd: CandleDataAdapter, i: nat, n: nat, s: DrawSettings)
    ensures DrawFrom(cd, i, n, s).1.None? <==> forall j :: i <= j < n ==> cd.At(j).Success?
    ensures DrawFrom(cd, i, n, s).1.Some? ==>
              exists j :: i <= j < n && cd.At(j) == Failure(DrawFrom(cd, i, n, s).1.value) &&
                          forall k :: i <= k < j ==> cd.At(k).Success?
    decreases n - i
  {
    if i < n && cd.At(i).Success? {
      DrawStopsAtFirstUnreadablePoint(cd, i + 1, n, s);
      if DrawFrom(cd, i, n, s).1.Some? {
        var j :| i + 1 <= j < n && cd.At(j) == Failure(DrawFrom(cd, i + 1, n, s).1.value) &&
                 forall k :: i + 1 <= k < j ==> cd.At(k).Success?;
        assert forall k :: i <= k < j ==> cd.At(k).Success?;
      }
    }
  }

  /** Every box Draw fills has the stick width and a positive height. */
  lemma {:induction false} DrawnBoxesAreNeverFlat(cd: CandleDataAdapter, i: nat, n: nat, s: DrawSettings)
    ensures forall c :: c in DrawFrom(cd, i, n, s).0 && c.FillRect? ==> c.height > 0 && c.width == s.layout.width
    decreases n - i
  {
    if i < n && cd.At(i).Success? {
      DrawnBoxesAreNeverFlat(cd, i + 1, n, s);
      var g := Glyph(s, cd.At(i).value);
      GlyphShape(s, cd.At(i).value);
      assert forall c :: c in g && c.FillRect? ==> c.height > 0 && c.width == s.layout.width by {
        if g != [] && s.style == Filled {
          assert g == [g[0]] + g[1..];
        }
      }
    }
  }

  /** Draw's loop over the points: one glyph per point, until a point
      cannot be read. */
  method DrawPoints(cd: CandleDataAdapter, n: nat, s: DrawSettings) returns (cmds: seq<Command>, err: Option<Error>)
    ensures (cmds, err) == DrawFrom(cd, 0, n, s)
  {
    cmds, err := [], None;
    var i := 0;
    while i < n
      invariant 0 <= i <= n
      invariant DrawFrom(cd, 0, n, s).0 == cmds + DrawFrom(cd, i, n, s).0
      invariant DrawFrom(cd, 0, n, s).1 == DrawFrom(cd, i, n, s).1
      decreases n - i
    {
      var point := cd.At(i);
      DrawFromStep(cd, i, n, s);
      if point.Failure? {
        err := Some(point.error);
        assert cmds + [] == cmds;
        return;
      }
      ghost var rest := DrawFrom(cd, i + 1, n, s).0;
      var glyph := Glyph(s, point.value);
      assert cmds + (glyph + rest) == (cmds + glyph) + rest;
      cmds := cmds + glyph;
      i := i + 1;
    }
    assert cmds + [] == cmds;
  }

  /** A candle stick plot. */
  class CandlePlot {
    var bearishColor: Rgb
    var bullishColor: Rgb
    var style: Style
    var centered: bool
    var color: Rgb
    var stickWidth: int
    var openData: Data
    var lowData: Data
    var highData: Data
    var closeData: Data
    var abscissaData: Data
    var dataSource: Source
    var dataMember: Option<string>
    var legendLabel: string
    var showInLegend: bool

    /** The stick width is automatic or at least one pixel wide. */
    ghost predicate Valid()
      reads this
    {
      stickWidth == AutoScaleStickWidth || stickWidth >= 1
    }

    /** A plot with the default settings and no data. */
    constructor ()
      ensures Valid()
      ensures bearishColor == Black && bullishColor == White && style == Filled
      ensures centered && color == Black && stickWidth == AutoScaleStickWidth
      ensures openData == Null && lowData == Null && highData == Null && closeData == Null && abscissaData == Null
      ensures dataSource == NoSource && dataMember == None && legendLabel == "" && showInLegend
    {
      bearishColor, bullishColor, style := Black, White, Filled;
      centered, color, stickWidth := true, Black, AutoScaleStickWidth;
      openData, lowData, highData, closeData, abscissaData := Null, Null, Null, Null, Null;
      dataSource, dataMember, legendLabel, showInLegend := NoSource, None, "", true;
    }

    /** The `StickWidth` setter: widths below one pixel are refused. */
    method SetStickWidth(value: int) returns (o: Outcome)
      requires Valid()
      modifies this`stickWidth
      ensures Valid()
      ensures value < 1 ==> o == Fail(NPlotException("Stick width must be greater than 0.")) && stickWidth == old(stickWidth)
      ensures value >= 1 ==> o == Pass && stickWidth == value
    {
      if value < 1 {
        return Fail(NPlotException("Stick width must be greater than 0."));
      }
      stickWidth := value;
      return Pass;
    }

    /** The adapter each member builds over the current data fields. */
    function Adapter(): Result<CandleDataAdapter>
      reads this
    {
      NewCandleDataAdapter(dataSource, dataMember, abscissaData, openData, lowData, highData, closeData)
    }

    /** Draw measures the separation only when the sticks are centred or
        auto-sized; a negative one (abscissa values decreasing in pixels)
        would be cast to an unsigned integer, which is not modelled. */
    predicate SeparationIsNonNegative(xAxis: PhysicalAxis)
      reads this
    {
      (centered || stickWidth == AutoScaleStickWidth) && Adapter().Success? &&
        PhysicalSeparation(Adapter().value, xAxis).Success? ==>
        PhysicalSeparation(Adapter().value, xAxis).value >= 0
    }

    /** The stick layout Draw works out for the adapter's points: the
        separation is measured only when the sticks are centred or
        auto-sized. */
    function StickLayoutFor(cd: CandleDataAdapter, xAxis: PhysicalAxis): Result<StickLayout>
      requires Valid()
      requires (centered || stickWidth == AutoScaleStickWidth) && PhysicalSeparation(cd, xAxis).Success? ==>
                 PhysicalSeparation(cd, xAxis).value >= 0
      reads this
    {
      if centered || stickWidth == AutoScaleStickWidth then
        var separation :- PhysicalSeparation(cd, xAxis);
        Success(Layout(stickWidth, centered, separation))
      else Success(Layout(stickWidth, centered, 0))
    }

    /** What Draw emits and the exception it ends with, if any: one glyph
        per point in order, laid out by the stick width and separation. */
    function Drawing(xAxis: PhysicalAxis, yAxis: PhysicalAxis): (seq<Command>, Option<Error>)
      requires Valid() && SeparationIsNonNegative(xAxis)
      reads this
    {
      match Adapter()
      case Failure(e) => ([], Some(e))
      case Success(cd) =>
        match StickLayoutFor(cd, xAxis)
        case Failure(e) => ([], Some(e))
        case Success(layout) =>
          match cd.Count()
          case Failure(e) => ([], Some(e))
          case Success(n) =>
            DrawFrom(cd, 0, n, DrawSettings(style, Solid(color), Solid(bullishColor), Solid(bearishColor), layout, xAxis, yAxis))
    }

    /** `Draw`: the commands issued to the surface, and the exception that
        ends it early, if any (commands issued before it stay drawn). */
    method Draw(xAxis: PhysicalAxis, yAxis: PhysicalAxis) returns (cmds: seq<Command>, err: Option<Error>)
      requires Valid() && SeparationIsNonNegative(xAxis)
      ensures (cmds, err) == Drawing(xAxis, yAxis)
    {
      var adapter := Adapter();
      if adapter.Failure? { return [], Some(adapter.error); }
      var cd := adapter.value;
      var layout := MeasureLayout(cd, xAxis);
      if layout.Failure? { return [], Some(layout.error); }
      var settings := DrawSettings(style, Solid(color), Solid(bullishColor), Solid(bearishColor),
                                   layout.value, xAxis, yAxis);
      var count := cd.Count();
      if count.Failure? { return [], Some(count.error); }
      cmds, err := DrawPoints(cd, count.value, settings);
    }

    /** The first part of Draw: the offset, the tick reach and the box
        width, from the separation of the points when it is needed. */
    method MeasureLayout(cd: CandleDataAdapter, xAxis: PhysicalAxis) returns (r: Result<StickLayout>)
      requires Valid()
      requires (centered || stickWidth == AutoScaleStickWidth) && PhysicalSeparation(cd, xAxis).Success? ==>
                 PhysicalSeparation(cd, xAxis).value >= 0
      ensures r == StickLayoutFor(cd, xAxis)
    {
      var offset := 0;
      if centered {
        var separation := CalculatePhysicalSeparation(cd, xAxis);
        if separation.Failure? { return Failure(separation.error); }
        offset := separation.value / 2;
      }
      var addAmount := stickWidth / 2;
      var width := stickWidth;
      if stickWidth == AutoScaleStickWidth {
        addAmount, width := 2, 4;
        var minDist := CalculatePhysicalSeparation(cd, xAxis);
        if minDist.Failure? { return Failure(minDist.error); }
        addAmount := minDist.value / 3;
        width := addAmount * 2;
      }
      return Success(StickLayout(offset, addAmount, width));
    }

    /** `SuggestXAxis` */
    function SuggestXAxis(mm: MinMax): (r: Result<Axis>)
      reads this
      ensures r.Success? <==> Adapter().Success? && Adapter().value.SuggestXAxis(mm).Success?
      ensures r.Success? ==> r == Adapter().value.SuggestXAxis(mm)
    {
      var cd :- Adapter();
      cd.SuggestXAxis(mm)
    }

    /** `SuggestYAxis` */
    function SuggestYAxis(mm: MinMax, increaseRange: (Axis, real) -> Axis): (r: Result<Axis>)
      reads this
      ensures r.Success? <==> Adapter().Success? && Adapter().value.SuggestYAxis(mm, increaseRange).Success?
      ensures r.Success? ==> r == Adapter().value.SuggestYAxis(mm, increaseRange)
    {
      var cd :- Adapter();
      cd.SuggestYAxis(mm, increaseRange)
    }

    /** `DrawInLegend`: a horizontal line in the plot colour across the
        middle of the legend box. */
    function DrawInLegend(startEnd: Rectangle): (r: seq<Command>)
      reads this
      ensures |r| == 1 && r[0].Line? && r[0].pen == Solid(color)
      ensures r[0].x1 == startEnd.left && r[0].x2 == startEnd.Right() && r[0].y1 == r[0].y2
      ensures startEnd.height >= 0 ==> startEnd.top <= r[0].y1 <= startEnd.Bottom()
      // the integer midpoint of top and bottom, rounded toward zero
      ensures var sum := startEnd.top + startEnd.Bottom();
              (sum >= 0 ==> 0 <= sum - 2 * r[0].y1 <= 1) && (sum < 0 ==> -1 <= sum - 2 * r[0].y1 <= 0)
    {
      var middle := TruncDiv(startEnd.top + startEnd.Bottom(), 2);
      [Line(Solid(color), startEnd.left, middle, startEnd.Right(), middle)]
    }
  }
}
