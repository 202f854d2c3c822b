/**
 * Image plots: a 2-D array of values drawn as a grid of filled blocks,
 * each coloured by where its value lies between the data minimum and
 * maximum.
 */
module Images {
  import opened Numbers
  import opened Exceptions
  import opened Drawing

  /** v is one of the elements of a. */
  ghost predicate Occurs(a: array2<real>, v: real)
    reads a
  {
    exists i, j :: 0 <= i < a.Length0 && 0 <= j < a.Length1 && a[i, j] == v
  }

  /** lo is the smallest and hi the largest element of a. */
  ghost predicate IsRange(a: array2<real>, lo: real, hi: real)
    reads a
  {
    Occurs(a, lo) && Occurs(a, hi) &&
    forall i, j :: 0 <= i < a.Length0 && 0 <= j < a.Length1 ==> lo <= a[i, j] <= hi
  }

  /** The colour parameter of a value: where it lies between the data
      minimum and maximum, as a double division. */
  function GradientParameter(v: real, dataMin: real, dataMax: real): (t: Num)
    ensures dataMin != dataMax && v == dataMin ==> t == Val(0.0)
    ensures dataMin != dataMax && v == dataMax ==> t == Val(1.0)
    ensures dataMin < dataMax && dataMin <= v <= dataMax ==> t.Val? && 0.0 <= t.r <= 1.0
    ensures dataMin == dataMax ==> (t.NaN? <==> v == dataMin)
  {
    if dataMin != dataMax then
      Fraction(v - dataMin, dataMax - dataMin);
      Quotient(v - dataMin, dataMax - dataMin)
    else Quotient(v - dataMin, dataMax - dataMin)
  }

  lemma Fraction(a: real, b: real)
    requires b != 0.0
    ensures a == 0.0 ==> a / b == 0.0
    ensures a == b ==> a / b == 1.0
    ensures 0.0 <= a <= b ==> 0.0 <= a / b <= 1.0
  {
    assert a / b * b == a;
    assert (1.0 - a / b) * b == b - a;
  }

  /** The size of a block along one direction, in pixels, and whether
      world values grow in the direction of growing pixel coordinates. */
  datatype BlockSize = BlockSize(size: real, positive: bool)

  /** `physicalSpan / (worldSpan / step)`, made absolute, plus one pixel. */
  function BlockSizeOf(physicalSpan: int, worldSpan: real, step: real): BlockSize
    requires worldSpan != 0.0 && step != 0.0
  {
    var numBlocks := worldSpan / step;
    var blockSize := physicalSpan as real / numBlocks;
    BlockSize(RealAbs(blockSize) + 1.0, !(blockSize < 0.0))
  }

  /** A block covers the pixels of one world step, plus one, and is at
      least one pixel wide. */
  lemma BlockSizeIsPixelsPerStep(physicalSpan: int, worldSpan: real, step: real)
    requires worldSpan != 0.0 && step != 0.0
    ensures var b := BlockSizeOf(physicalSpan, worldSpan, step);
            b.size == RealAbs(physicalSpan as real * step / worldSpan) + 1.0 &&
            b.size >= 1.0 && TruncToInt(b.size) >= 1 &&
            (b.positive <==> physicalSpan as real * step / worldSpan >= 0.0)
  {
    var numBlocks := worldSpan / step;
    assert physicalSpan as real / numBlocks == physicalSpan as real * step / worldSpan;
  }

  /** The world coordinate where the block of index k starts in one
      direction: one step further when world values run against the pixel
      direction, half a step back when blocks are centred. */
  function CellOrigin(k: int, start: real, step: real, positive: bool, center: bool): real {
    var w := k as real * step + start;
    var w := if !positive then w + step else w;
    if center then w - step / 2.0 else w
  }

  class ImagePlot {
    const data: array2<real>
    const xStart: real
    const xStep: real
    const yStart: real
    const yStep: real
    var center: bool
    var dataMax: real
    var dataMin: real
    var gradient: Gradient?
    var legendLabel: string
    var showInLegend: bool

    /** `ImagePlot(data, xStart, xStep, yStart, yStep)`: reading the first
        element requires data with at least one row and one column. */
    constructor (data: array2<real>, xStart: real, xStep: real, yStart: real, yStep: real)
      requires data.Length0 > 0 && data.Length1 > 0
      ensures this.data == data && this.xStart == xStart && this.xStep == xStep
      ensures this.yStart == yStart && this.yStep == yStep
      ensures center && legendLabel == "" && showInLegend && gradient == null
      ensures IsRange(data, dataMin, dataMax)
    {
      this.data := data;
      this.xStart, this.xStep := xStart, xStep;
      this.yStart, this.yStep := yStart, yStep;
      center, legendLabel, showInLegend, gradient := true, "", true, null;
      new;
      CalculateMinMax();
    }

    /** `ImagePlot(data)`: unit steps starting at zero. */
    constructor WithUnitSteps(data: array2<real>)
      requires data.Length0 > 0 && data.Length1 > 0
      ensures this.data == data && xStart == 0.0 && xStep == 1.0 && yStart == 0.0 && yStep == 1.0
      ensures center && legendLabel == "" && showInLegend && gradient == null
      ensures IsRange(data, dataMin, dataMax)
    {
      this.data := data;
      xStart, xStep, yStart, yStep := 0.0, 1.0, 0.0, 1.0;
      center, legendLabel, showInLegend, gradient := true, "", true, null;
      new;
      CalculateMinMax();
    }

    /** The five-argument constructor for any array reference: reading the
        first element of a null or empty array throws. */
    static method Create(data: array2?<real>, xStart: real, xStep: real, yStart: real, yStep: real)
      returns (r: Result<ImagePlot>)
      ensures data == null ==> r == Failure(NullReference)
      ensures data != null && (data.Length0 == 0 || data.Length1 == 0) ==> r == Failure(IndexOutOfRange)
      ensures data != null && data.Length0 > 0 && data.Length1 > 0 ==>
                r.Success? && fresh(r.value) && r.value.data == data &&
                r.value.xStart == xStart && r.value.xStep == xStep &&
                r.value.yStart == yStart && r.value.yStep == yStep &&
                r.value.center && r.value.gradient == null &&
                IsRange(data, r.value.dataMin, r.value.dataMax)
    {
      if data == null { return Failure(NullReference); }
      if data.Length0 == 0 || data.Length1 == 0 { return Failure(IndexOutOfRange); }
      var plot := new ImagePlot(data, xStart, xStep, yStart, yStep);
      return Success(plot);
    }

    /** The one-argument constructor for any array reference. */
    static method CreateWithUnitSteps(data: array2?<real>) returns (r: Result<ImagePlot>)
      ensures data == null ==> r == Failure(NullReference)
      ensures data != null && (data.Length0 == 0 || data.Length1 == 0) ==> r == Failure(IndexOutOfRange)
      ensures data != null && data.Length0 > 0 && data.Length1 > 0 ==>
                r.Success? && fresh(r.value) && r.value.data == data &&
                r.value.xStart == 0.0 && r.value.xStep == 1.0 &&
                r.value.yStart == 0.0 && r.value.yStep == 1.0 &&
                r.value.center && r.value.gradient == null &&
                IsRange(data, r.value.dataMin, r.value.dataMax)
    {
      if data == null { return Failure(NullReference); }
      if data.Length0 == 0 || data.Length1 == 0 { return Failure(IndexOutOfRange); }
      var plot := new ImagePlot.WithUnitSteps(data);
      return Success(plot);
    }

    /** `calculateMinMax`: a scan of all elements, row by row. */
    method CalculateMinMax()
      requires data.Length0 > 0 && data.Length1 > 0
      modifies this`dataMin, this`dataMax
      ensures IsRange(data, dataMin, dataMax)
    {
      dataMin := data[0, 0];
      dataMax := data[0, 0];
      ghost var minAt, maxAt := (0, 0), (0, 0);
      var i := 0;
      while i < data.Length0
        invariant 0 <= i <= data.Length0
        invariant 0 <= minAt.0 < data.Length0 && 0 <= minAt.1 < data.Length1 && data[minAt.0, minAt.1] == dataMin
        invariant 0 <= maxAt.0 < data.Length0 && 0 <= maxAt.1 < data.Length1 && data[maxAt.0, maxAt.1] == dataMax
        invariant forall k, l :: 0 <= k < i && 0 <= l < data.Length1 ==> dataMin <= data[k, l] <= dataMax
      {
        var j := 0;
        while j < data.Length1
          invariant 0 <= j <= data.Length1
          invariant 0 <= minAt.0 < data.Length0 && 0 <= minAt.1 < data.Length1 && data[minAt.0, minAt.1] == dataMin
          invariant 0 <= maxAt.0 < data.Length0 && 0 <= maxAt.1 < data.Length1 && data[maxAt.0, maxAt.1] == dataMax
          invariant forall k, l :: 0 <= k < i && 0 <= l < data.Length1 ==> dataMin <= data[k, l] <= dataMax
          invariant forall l :: 0 <= l < j ==> dataMin <= data[i, l] <= dataMax
        {
          if data[i, j] < dataMin {
            dataMin := data[i, j];
            minAt := (i, j);
          }
          if data[i, j] > dataMax {
            dataMax := data[i, j];
            maxAt := (i, j);
          }
          j := j + 1;
        }
        i := i + 1;
      }
    }

    /** The `Gradient` getter: a white-to-black gradient is created on the
        first read when none is set, and that same object is kept. */
    method GetGradient() returns (g: Gradient)
      modifies this`gradient
      ensures gradient == g
      ensures old(gradient) != null ==> g == old(gradient)
      ensures old(gradient) == null ==> fresh(g) && g.low == White && g.high == Black
    {
      if gradient == null {
        gradient := new Gradient(Rgb(255, 255, 255), Rgb(0, 0, 0));
      }
      g := gradient;
    }

    /** The `Gradient` setter. */
    method SetGradient(g: Gradient?)
      modifies this`gradient
      ensures gradient == g
    {
      gradient := g;
    }

    /** `SuggestXAxis`: a linear axis exactly as wide as the columns. */
    function SuggestXAxis(): (a: Axis)
      reads this
      ensures a.kind == Linear && a.worldMin.Val? && a.worldMax.Val?
      ensures a.worldMax.r - a.worldMin.r == xStep * data.Length1 as real
      ensures a.worldMin == Val(if center then xStart - xStep / 2.0 else xStart)
    {
      if center then
        Axis(Linear, Val(xStart - xStep / 2.0), Val(xStart + xStep * data.Length1 as real - xStep / 2.0))
      else Axis(Linear, Val(xStart), Val(xStart + xStep * data.Length1 as real))
    }

    /** `SuggestYAxis`: a linear axis exactly as high as the rows. */
    function SuggestYAxis(): (a: Axis)
      reads this
      ensures a.kind == Linear && a.worldMin.Val? && a.worldMax.Val?
      ensures a.worldMax.r - a.worldMin.r == yStep * data.Length0 as real
      ensures a.worldMin == Val(if center then yStart - yStep / 2.0 else yStart)
    {
      if center then
        Axis(Linear, Val(yStart - yStep / 2.0), Val(yStart + yStep * data.Length0 as real - yStep / 2.0))
      else Axis(Linear, Val(yStart), Val(yStart + yStep * data.Length0 as real))
    }

    /** `DrawInLegend` is not implemented by the plot: it draws nothing. */
    function DrawInLegend(startEnd: Rectangle): (r: seq<Command>)
      ensures |r| == 0
    {
      []
    }

    /** Whether Draw's block sizes are defined: a zero step or an empty
        world range would divide by zero. */
    predicate Drawable(xAxis: PhysicalAxis, yAxis: PhysicalAxis)
    {
      xStep != 0.0 && yStep != 0.0 && xAxis.worldMax != xAxis.worldMin && yAxis.worldMax != yAxis.worldMin
    }

    function BlockWidth(xAxis: PhysicalAxis): BlockSize
      requires xStep != 0.0 && xAxis.worldMax != xAxis.worldMin
    {
      BlockSizeOf(xAxis.physicalMax - xAxis.physicalMin, xAxis.worldMax - xAxis.worldMin, xStep)
    }

    function BlockHeight(yAxis: PhysicalAxis): BlockSize
      requires yStep != 0.0 && yAxis.worldMax != yAxis.worldMin
    {
      BlockSizeOf(yAxis.physicalMax - yAxis.physicalMin, yAxis.worldMax - yAxis.worldMin, yStep)
    }

    /** The filled block Draw emits for element (i, j). */
    function CellCommand(g: Gradient, xAxis: PhysicalAxis, yAxis: PhysicalAxis, i: nat, j: nat): (c: Command)
      reads this`center, this`dataMin, this`dataMax, data
      requires Drawable(xAxis, yAxis) && i < data.Length0 && j < data.Length1
      ensures c.FillRect? && c.width >= 1 && c.height >= 1
      ensures c.brush == Shade(g, GradientParameter(data[i, j], dataMin, dataMax))
    {
      BlockSizeIsPixelsPerStep(xAxis.physicalMax - xAxis.physicalMin, xAxis.worldMax - xAxis.worldMin, xStep);
      BlockSizeIsPixelsPerStep(yAxis.physicalMax - yAxis.physicalMin, yAxis.worldMax - yAxis.worldMin, yStep);
      var bw, bh := BlockWidth(xAxis), BlockHeight(yAxis);
      var wX := CellOrigin(j, xStart, xStep, bw.positive, center);
      var wY := CellOrigin(i, yStart, yStep, bh.positive, center);
      FillRect(Shade(g, GradientParameter(data[i, j], dataMin, dataMax)),
               xAxis.Pixel(Val(wX)), yAxis.Pixel(Val(wY)), TruncToInt(bw.size), TruncToInt(bh.size))
    }

    lemma CellCommandIs(g: Gradient, xAxis: PhysicalAxis, yAxis: PhysicalAxis, i: nat, j: nat)
      requires Drawable(xAxis, yAxis) && i < data.Length0 && j < data.Length1
      ensures CellCommand(g, xAxis, yAxis, i, j) ==
                FillRect(Shade(g, GradientParameter(data[i, j], dataMin, dataMax)),
                         xAxis.Pixel(Val(CellOrigin(j, xStart, xStep, BlockWidth(xAxis).positive, center))),
                         yAxis.Pixel(Val(CellOrigin(i, yStart, yStep, BlockHeight(yAxis).positive, center))),
                         TruncToInt(BlockWidth(xAxis).size), TruncToInt(BlockHeight(yAxis).size))
    {
    }

    /** The blocks of the first `cols` elements of row i. */
    function RowCells(g: Gradient, xAxis: PhysicalAxis, yAxis: PhysicalAxis, i: nat, cols: nat): seq<Command>
      reads this`center, this`dataMin, this`dataMax, data
      requires Drawable(xAxis, yAxis) && i < data.Length0 && cols <= data.Length1
    {
      if cols == 0 then [] else RowCells(g, xAxis, yAxis, i, cols - 1) + [CellCommand(g, xAxis, yAxis, i, cols - 1)]
    }

    /** The blocks of the first `rows` rows, row by row. */
    function Grid(g: Gradient, xAxis: PhysicalAxis, yAxis: PhysicalAxis, rows: nat): seq<Command>
      reads this`center, this`dataMin, this`dataMax, data
      requires Drawable(xAxis, yAxis) && rows <= data.Length0
    {
      if rows == 0 then [] else Grid(g, xAxis, yAxis, rows - 1) + RowCells(g, xAxis, yAxis, rows - 1, data.Length1)
    }

    /** `Draw`: one block per element, row by row, coloured through the
        plot's gradient (created on the first element if unset). */
    method Draw(xAxis: PhysicalAxis, yAxis: PhysicalAxis) returns (cmds: seq<Command>)
      requires data.Length0 > 0 && data.Length1 > 0 ==> Drawable(xAxis, yAxis)
      modifies this`gradient
      ensures data.Length0 == 0 || data.Length1 == 0 ==> cmds == [] && gradient == old(gradient)
      ensures old(gradient) != null ==> gradient == old(gradient)
      ensures old(gradient) == null && data.Length0 > 0 && data.Length1 > 0 ==>
                fresh(gradient) && gradient.low == White && gradient.high == Black
      ensures data.Length0 > 0 && data.Length1 > 0 ==>
                gradient != null && cmds == Grid(gradient, xAxis, yAxis, data.Length0)
    {
      cmds := [];
      if data.Length0 == 0 || data.Length1 == 0 {
        return;
      }
      var worldWidth := xAxis.worldMax - xAxis.worldMin;
      var numBlocksHorizontal := worldWidth / xStep;
      var worldHeight := yAxis.worldMax - yAxis.worldMin;
      var numBlocksVertical := worldHeight / yStep;

      var physicalWidth := (xAxis.physicalMax - xAxis.physicalMin) as real;
      var blockWidth := physicalWidth / numBlocksHorizontal;
      var wPositive := true;
      if blockWidth < 0.0 {
        wPositive := false;
      }
      blockWidth := RealAbs(blockWidth) + 1.0;

      var physicalHeight := (yAxis.physicalMax - yAxis.physicalMin) as real;
      var blockHeight := physicalHeight / numBlocksVertical;
      var hPositive := true;
      if blockHeight < 0.0 {
        hPositive := false;
      }
      blockHeight := RealAbs(blockHeight) + 1.0;
      assert BlockWidth(xAxis) == BlockSize(blockWidth, wPositive);
      assert BlockHeight(yAxis) == BlockSize(blockHeight, hPositive);

      var i := 0;
      while i < data.Length0
        invariant 0 <= i <= data.Length0
        invariant old(gradient) != null ==> gradient == old(gradient)
        invariant old(gradient) == null && i > 0 ==> fresh(gradient) && gradient.low == White && gradient.high == Black
        invariant i > 0 ==> gradient != null && cmds == Grid(gradient, xAxis, yAxis, i)
        invariant i == 0 ==> cmds == [] && gradient == old(gradient)
      {
        var row := DrawRow(xAxis, yAxis, i, blockWidth, wPositive, blockHeight, hPositive);
        cmds := cmds + row;
        i := i + 1;
      }
    }

    /** One pass of Draw's inner loop: the blocks of row i, left to right. */
    method DrawRow(xAxis: PhysicalAxis, yAxis: PhysicalAxis, i: nat,
                   blockWidth: real, wPositive: bool, blockHeight: real, hPositive: bool)
      returns (row: seq<Command>)
      requires Drawable(xAxis, yAxis) && i < data.Length0 && data.Length1 > 0
      requires BlockWidth(xAxis) == BlockSize(blockWidth, wPositive)
      requires BlockHeight(yAxis) == BlockSize(blockHeight, hPositive)
      modifies this`gradient
      ensures old(gradient) != null ==> gradient == old(gradient)
      ensures old(gradient) == null ==> fresh(gradient) && gradient.low == White && gradient.high == Black
      ensures gradient != null && row == RowCells(gradient, xAxis, yAxis, i, data.Length1)
    {
      row := [];
      var j := 0;
      while j < data.Length1
        invariant 0 <= j <= data.Length1
        invariant old(gradient) != null ==> gradient == old(gradient)
        invariant old(gradient) == null && j > 0 ==> fresh(gradient) && gradient.low == White && gradient.high == Black
        invariant j > 0 ==> gradient != null && row == RowCells(gradient, xAxis, yAxis, i, j)
        invariant j == 0 ==> row == [] && gradient == old(gradient)
      {
        var cell := DrawCell(xAxis, yAxis, i, j, blockWidth, wPositive, blockHeight, hPositive);
        row := row + [cell];
        j := j + 1;
      }
    }

    /** The body of Draw's inner loop: the block of element (i, j), through
        the plot's gradient, which is created here when none is set. */
    method DrawCell(xAxis: PhysicalAxis, yAxis: PhysicalAxis, i: nat, j: nat,
                    blockWidth: real, wPositive: bool, blockHeight: real, hPositive: bool)
      returns (cell: Command)
      requires Drawable(xAxis, yAxis) && i < data.Length0 && j < data.Length1
      requires BlockWidth(xAxis) == BlockSize(blockWidth, wPositive)
      requires BlockHeight(yAxis) == BlockSize(blockHeight, hPositive)
      modifies this`gradient
      ensures old(gradient) != null ==> gradient == old(gradient)
      ensures old(gradient) == null ==> fresh(gradient) && gradient.low == White && gradient.high == Black
      ensures gradient != null && cell == CellCommand(gradient, xAxis, yAxis, i, j)
    {
      var wX := j as real * xStep + xStart;
      var wY := i as real * yStep + yStart;
      if !hPositive {
        wY := wY + yStep;
      }
      if !wPositive {
        wX := wX + xStep;
      }
      if center {
        wX := wX - xStep / 2.0;
        wY := wY - yStep / 2.0;
      }
      var g := GetGradient();
      var brush := Shade(g, GradientParameter(data[i, j], dataMin, dataMax));
      var x := xAxis.Pixel(Val(wX));
      var y := yAxis.Pixel(Val(wY));
      CellCommandIs(g, xAxis, yAxis, i, j);
      cell := FillRect(brush, x, y, TruncToInt(blockWidth), TruncToInt(blockHeight));
    }

    /** The first `rows` rows hold rows * columns blocks. */
    lemma {:induction false} GridLength(g: Gradient, xAxis: PhysicalAxis, yAxis: PhysicalAxis, rows: nat)
      requires Drawable(xAxis, yAxis) && rows <= data.Length0
      ensures |Grid(g, xAxis, yAxis, rows)| == rows * data.Length1
    {
      if rows > 0 {
        GridLength(g, xAxis, yAxis, rows - 1);
        RowCellsInOrder(g, xAxis, yAxis, rows - 1, data.Length1);
        assert rows * data.Length1 == (rows - 1) * data.Length1 + data.Length1;
      }
    }

    /** Draw's blocks are in row-major order: block i * columns + j is
        the block of element (i, j). */
    lemma {:induction false} GridElement(g: Gradient, xAxis: PhysicalAxis, yAxis: PhysicalAxis, rows: nat, i: nat, j: nat)
      requires Drawable(xAxis, yAxis) && rows <= data.Length0 && i < rows && j < data.Length1
      ensures i * data.Length1 + j < |Grid(g, xAxis, yAxis, rows)| &&
              Grid(g, xAxis, yAxis, rows)[i * data.Length1 + j] == CellCommand(g, xAxis, yAxis, i, j)
    {
      var cols := data.Length1;
      GridLength(g, xAxis, yAxis, rows);
      RowMajorIndexInRange(i, j, rows, cols);
      GridLength(g, xAxis, yAxis, rows - 1);
      var prefix := Grid(g, xAxis, yAxis, rows - 1);
      var last := RowCells(g, xAxis, yAxis, rows - 1, cols);
      assert Grid(g, xAxis, yAxis, rows) == prefix + last;
      if i < rows - 1 {
        RowMajorIndexInRange(i, j, rows - 1, cols);
        GridElement(g, xAxis, yAxis, rows - 1, i, j);
      } else {
        RowCellsInOrder(g, xAxis, yAxis, rows - 1, cols);
        assert i * cols + j == |prefix| + j;
      }
    }

    /** The blocks of a row are its elements in column order. */
    lemma {:induction false} RowCellsInOrder(g: Gradient, xAxis: PhysicalAxis, yAxis: PhysicalAxis, i: nat, cols: nat)
      requires Drawable(xAxis, yAxis) && i < data.Length0 && cols <= data.Length1
      ensures |RowCells(g, xAxis, yAxis, i, cols)| == cols
      ensures forall j :: 0 <= j < cols ==> RowCells(g, xAxis, yAxis, i, cols)[j] == CellCommand(g, xAxis, yAxis, i, j)
    {
      if cols > 0 {
        RowCellsInOrder(g, xAxis, yAxis, i, cols - 1);
      }
    }
  }

  /** Row-major index arithmetic: element (i, j) of a rows-by-cols grid
      lies inside it. */
  lemma RowMajorIndexInRange(i: nat, j: nat, rows: nat, cols: nat)
    requires i < rows && j < cols
    ensures i * cols + j < rows * cols
  {
    assert rows * cols == i * cols + cols + (rows - 1 - i) * cols;
    assert (rows - 1 - i) * cols >= 0;
  }

  /** Adjacent blocks start exactly one step apart. */
  lemma CellsAreOneStepApart(k: int, start: real, step: real, positive: bool, center: bool)
    ensures CellOrigin(k + 1, start, step, positive, center) == CellOrigin(k, start, step, positive, center) + step
  {
  }

  /** With world values growing in the pixel direction, the blocks tile the
      suggested x range: the first starts at its minimum and the last ends
      at its maximum. */
  lemma BlocksTileSuggestedXAxis(plot: ImagePlot)
    requires plot.data.Length1 > 0
    ensures var a := plot.SuggestXAxis();
            var cols := plot.data.Length1;
            CellOrigin(0, plot.xStart, plot.xStep, true, plot.center) == a.worldMin.r &&
            CellOrigin(cols - 1, plot.xStart, plot.xStep, true, plot.center) + plot.xStep == a.worldMax.r
  {
  }

  /** The same for the rows and the suggested y range. */
  lemma BlocksTileSuggestedYAxis(plot: ImagePlot)
    requires plot.data.Length0 > 0
    ensures var a := plot.SuggestYAxis();
            var rows := plot.data.Length0;
            CellOrigin(0, plot.yStart, plot.yStep, true, plot.center) == a.worldMin.r &&
            CellOrigin(rows - 1, plot.yStart, plot.yStep, true, plot.center) + plot.yStep == a.worldMax.r
  {
  }
}
