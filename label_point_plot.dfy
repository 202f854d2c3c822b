/**
 * Point plots with a text label beside each point.
 *
 * The points themselves come from the sequence adapter of the point plot
 * this plot extends, and the marker from its marker; both are outside this
 * model, so Draw takes the points as given and the marker by its size.
 */
module LabelPoints {
  import opened Numbers
  import opened Exceptions
  import opened DataSources
  import opened Drawing

  /** Where a label goes relative to its point. */
  datatype LabelPosition = Above | Below | Left | Right

  /** How the text of the labels is given. */
  datatype TextData =
    | NoText                     // null
    | Strings(ss: seq<string>)   // a string[]
    | ColumnName(name: string)   // a string: a column of the data source
    | List(items: seq<Value>)    // an ArrayList
    | OtherText                  // any other object

  const NotRecognisedFormat := "TextDataAdapter: data not in recognised format"

  /** `TextDataAdapter`: the text of the label of each point. */
  datatype TextDataAdapter = TextDataAdapter(source: Source, member: Option<string>, data: TextData)
  {
    /** The indexer `this[i]`. */
    function At(i: nat): (r: Result<string>)
      ensures data.Strings? ==>
                (r.Success? <==> i < |data.ss|) && (r.Success? ==> r.value == data.ss[i]) &&
                (i >= |data.ss| ==> r == Failure(IndexOutOfRange))
      ensures data.ColumnName? && source.NoSource? ==> r == Failure(NPlotException("Error: DataSource null"))
      ensures data.ColumnName? && r.Success? ==>
                var rows := ResolveRows(source, member);
                rows.Success? && rows.value.Some? && i < |rows.value.value| &&
                data.name in rows.value.value[i] && rows.value.value[i][data.name] == Value.Text(r.value)
      // with a source: its exception, or the cell of row i in the named column
      ensures data.ColumnName? && !source.NoSource? ==>
                var rows := ResolveRows(source, member);
                (rows.Failure? ==> r == Failure(rows.error)) &&
                (rows.Success? ==>
                   rows.value.Some? &&
                   (i >= |rows.value.value| ==> r == Failure(IndexOutOfRange)) &&
                   (i < |rows.value.value| ==>
                      var row := rows.value.value[i];
                      (data.name !in row ==> r == Failure(ArgumentError)) &&
                      (data.name in row && row[data.name].Text? ==> r == Success(row[data.name].s)) &&
                      (data.name in row && !row[data.name].Text? ==> r == Failure(InvalidCast))))
      ensures data.List? ==>
                (r.Success? <==> i < |data.items| && data.items[i].Text?) &&
                (r.Success? ==> r.value == data.items[i].s) &&
                (i >= |data.items| ==> r == Failure(ArgumentOutOfRange)) &&
                (i < |data.items| && !data.items[i].Text? ==> r == Failure(NPlotException(NotRecognisedFormat)))
      ensures data.NoText? ==> r == Success("text")
      ensures data.OtherText? ==> r == Failure(NPlotException("Text data not of recognised type"))
    {
      match data
      case Strings(ss) => if i < |ss| then Success(ss[i]) else Failure(IndexOutOfRange)
      case ColumnName(name) =>
        if source.NoSource? then Failure(NPlotException("Error: DataSource null"))
        else
          var rows :- ResolveRows(source, member);
          if i >= |rows.value| then Failure(IndexOutOfRange)
          else
            var v :- Cell(rows.value[i], name);
            if v.Text? then Success(v.s) else Failure(InvalidCast)
      case List(items) =>
        if i >= |items| then Failure(ArgumentOutOfRange)
        else if items[i].Text? then Success(items[i].s)
        else Failure(NPlotException(NotRecognisedFormat))
      case NoText => Success("text")
      case OtherText => Failure(NPlotException("Text data not of recognised type"))
    }

    /** `Count` */
    function Count(): (r: Result<nat>)
      ensures data.NoText? ==> r == Success(0)
      ensures data.Strings? ==> r == Success(|data.ss|)
      ensures data.List? ==> r == Success(|data.items|)
      ensures data.ColumnName? || data.OtherText? ==> r == Failure(NPlotException("Text data not in correct format"))
    {
      match data
      case NoText => Success(0)
      case Strings(ss) => Success(|ss|)
      case List(items) => Success(|items|)
      case _ => Failure(NPlotException("Text data not in correct format"))
    }
  }

  /** For arrays and lists, no label can be read at or past the count. */
  lemma NoLabelPastCount(t: TextDataAdapter, i: nat)
    requires t.data.Strings? || t.data.List?
    requires i >= t.Count().value
    ensures t.At(i).Failure?
  {
  }

  /** The count and the indexer disagree for two kinds of text data: a
      column name has labels but no count, and null has a label for every
      point but a count of zero. */
  lemma CountIgnoresColumnsAndNull(t: TextDataAdapter, i: nat)
    ensures t.data.ColumnName? ==> t.Count().Failure?
    ensures t.data.NoText? ==> t.Count() == Success(0) && t.At(i) == Success("text")
  {
  }

  /** The measured size of a string. */
  datatype Size = Size(width: real, height: real)

  /** A label's distance from its point: two thirds of the marker size,
      in integer arithmetic. */
  function LabelOffset(markerSize: int): int {
    TruncDiv(markerSize * 2, 3)
  }

  /** The top-left corner of a label of the given size for the point at
      pixel (x, y). */
  function LabelOrigin(position: LabelPosition, x: real, y: real, size: Size, markerSize: int): (p: (real, real))
    // Above and Below: horizontally centred on the point
    ensures position == Above || position == Below ==> p.0 + size.width / 2.0 == x
    // Left and Right: vertically centred on the point
    ensures position == Left || position == Right ==> p.1 + size.height / 2.0 == y
    // the edge facing the point is the offset away from it
    ensures position == Above ==> p.1 + size.height == y - LabelOffset(markerSize) as real
    ensures position == Below ==> p.1 == y + LabelOffset(markerSize) as real
    ensures position == Left ==> p.0 + size.width == x - LabelOffset(markerSize) as real
    ensures position == Right ==> p.0 == x + LabelOffset(markerSize) as real
  {
    var offset := LabelOffset(markerSize) as real;
    match position
    case Above => (x - size.width / 2.0, y - size.height - offset)
    case Below => (x - size.width / 2.0, y + offset)
    case Left => (x - size.width - offset, y - size.height / 2.0)
    case Right => (x + offset, y - size.height / 2.0)
  }

  /** With a non-negative marker size and label size, a label never
      covers its point: it lies wholly on its side of the point. */
  lemma LabelKeepsClearOfPoint(position: LabelPosition, x: real, y: real, size: Size, markerSize: int)
    requires markerSize >= 0 && size.width >= 0.0 && size.height >= 0.0
    ensures var p := LabelOrigin(position, x, y, size, markerSize);
            (position == Above ==> p.1 + size.height <= y) &&
            (position == Below ==> p.1 >= y) &&
            (position == Left ==> p.0 + size.width <= x) &&
            (position == Right ==> p.0 >= x)
  {
  }

  /** What Draw needs besides the points. */
  datatype LabelSettings = LabelSettings(
    position: LabelPosition, font: Font, markerSize: int,
    xAxis: PhysicalAxis, yAxis: PhysicalAxis, measure: (string, Font) -> Size)

  const DrawError := NPlotException("Error in TextPlot.Draw")

  /** What Draw emits for point i: nothing for a NaN coordinate, else the
      marker and then the label, unless its text is empty; a label that
      cannot be read ends the drawing after the marker. */
  function PointCommands(t: TextDataAdapter, s: LabelSettings, i: nat, pt: (Num, Num)): (r: (seq<Command>, Option<Error>))
    ensures IsNaN(pt.0) || IsNaN(pt.1) ==> r == ([], None)
    ensures !IsNaN(pt.0) && !IsNaN(pt.1) ==>
              |r.0| >= 1 && r.0[0] == Marker(TruncToInt(s.xAxis.worldToPhysical(pt.0)), TruncToInt(s.yAxis.worldToPhysical(pt.1)))
    ensures r.1.Some? <==> !IsNaN(pt.0) && !IsNaN(pt.1) && t.At(i).Failure?
    ensures r.1.Some? ==> |r.0| == 1 && r.1 == Some(t.At(i).error)
    ensures !IsNaN(pt.0) && !IsNaN(pt.1) && t.At(i).Success? ==>
              (|r.0| == 2 <==> t.At(i).value != "") &&
              (|r.0| == 2 ==> r.0[1].Text? && r.0[1].text == t.At(i).value)
    // the label: black, in the plot's font, placed beside the point by LabelOrigin
    ensures |r.0| == 2 ==>
              var text := t.At(i).value;
              var origin := LabelOrigin(s.position, s.xAxis.worldToPhysical(pt.0), s.yAxis.worldToPhysical(pt.1),
                                        s.measure(text, s.font), s.markerSize);
              r.0[1] == Command.Text(text, s.font, Solid(Black), origin.0, origin.1)
  {
    if IsNaN(pt.0) || IsNaN(pt.1) then ([], None)
    else
      var xPos := s.xAxis.worldToPhysical(pt.0);
      var yPos := s.yAxis.worldToPhysical(pt.1);
      var marker := Marker(TruncToInt(xPos), TruncToInt(yPos));
      match t.At(i)
      case Failure(e) => ([marker], Some(e))
      case Success(text) =>
        if text == "" then ([marker], None)
        else
          var origin := LabelOrigin(s.position, xPos, yPos, s.measure(text, s.font), s.markerSize);
          ([marker, Command.Text(text, s.font, Solid(Black), origin.0, origin.1)], None)
  }

  /** The commands Draw emits for points i onwards, and the exception that
      ends it, if any. */
  function DrawFrom(t: TextDataAdapter, s: LabelSettings, points: seq<(Num, Num)>, i: nat): (seq<Command>, Option<Error>)
    requires i <= |points|
    decreases |points| - i
  {
    if i == |points| then ([], None)
    else
      var here := PointCommands(t, s, i, points[i]);
      if here.1.Some? then (here.0, Some(DrawError))
      else
        var rest := DrawFrom(t, s, points, i + 1);
        (here.0 + rest.0, rest.1)
  }

  /** Whatever goes wrong while drawing a point surfaces as the one
      library exception. */
  lemma {:induction false} DrawFailsOnlyWithDrawError(t: TextDataAdapter, s: LabelSettings, points: seq<(Num, Num)>, i: nat)
    requires i <= |points|
    ensures DrawFrom(t, s, points, i).1.Some? ==> DrawFrom(t, s, points, i).1 == Some(DrawError)
    ensures DrawFrom(t, s, points, i).1.None? <==>
              forall k :: i <= k < |points| && !IsNaN(points[k].0) && !IsNaN(points[k].1) ==> t.At(k).Success?
    decreases |points| - i
  {
    if i < |points| {
      DrawFailsOnlyWithDrawError(t, s, points, i + 1);
    }
  }

  /** No label Draw emits is empty. */
  lemma {:induction false} LabelsAreNeverEmpty(t: TextDataAdapter, s: LabelSettings, points: seq<(Num, Num)>, i: nat)
    requires i <= |points|
    ensures forall c :: c in DrawFrom(t, s, points, i).0 && c.Text? ==> c.text != ""
    decreases |points| - i
  {
    if i < |points| {
      LabelsAreNeverEmpty(t, s, points, i + 1);
    }
  }

  /** Without text data, drawing never fails and every point with finite
      coordinates gets its marker and the label "text". */
  lemma {:induction false} NullTextLabelsEveryPoint(t: TextDataAdapter, s: LabelSettings, points: seq<(Num, Num)>, i: nat)
    requires t.data.NoText? && i <= |points|
    ensures DrawFrom(t, s, points, i).1.None?
    ensures forall c :: c in DrawFrom(t, s, points, i).0 && c.Text? ==> c.text == "text"
    ensures |DrawFrom(t, s, points, i).0| == 2 * |set k | i <= k < |points| && !IsNaN(points[k].0) && !IsNaN(points[k].1)|
    decreases |points| - i
  {
    if i < |points| {
      NullTextLabelsEveryPoint(t, s, points, i + 1);
      var finite := set k | i <= k < |points| && !IsNaN(points[k].0) && !IsNaN(points[k].1);
      var later := set k | i + 1 <= k < |points| && !IsNaN(points[k].0) && !IsNaN(points[k].1);
      if !IsNaN(points[i].0) && !IsNaN(points[i].1) {
        assert finite == later + {i};
      } else {
        assert finite == later;
      }
    }
  }

  class LabelPointPlot {
    var textData: TextData
    var font: Font
    var labelTextPosition: LabelPosition
    var dataSource: Source
    var dataMember: Option<string>
    var legendLabel: string
    var showInLegend: bool
    const markerSize: int

    /** A plot whose marker has the given size: Arial 8 labels above the
        points, and no text or source yet. */
    constructor (markerSize: int)
      ensures this.markerSize == markerSize
      ensures font == Font("Arial", 8.0) && labelTextPosition == Above
      ensures textData == NoText && dataSource == NoSource && dataMember == None
      ensures legendLabel == "" && showInLegend
    {
      this.markerSize := markerSize;
      font, labelTextPosition := Font("Arial", 8.0), Above;
      textData, dataSource, dataMember := NoText, NoSource, None;
      legendLabel, showInLegend := "", true;
    }

    function Settings(xAxis: PhysicalAxis, yAxis: PhysicalAxis, measure: (string, Font) -> Size): LabelSettings
      reads this
    {
      LabelSettings(labelTextPosition, font, markerSize, xAxis, yAxis, measure)
    }

    function TextAdapter(): TextDataAdapter
      reads this
    {
      TextDataAdapter(dataSource, dataMember, textData)
    }

    /** `Draw` over the points of the plot's sequence adapter: the
        commands issued, and the exception that ends it, if any. */
    method Draw(points: seq<(Num, Num)>, xAxis: PhysicalAxis, yAxis: PhysicalAxis, measure: (string, Font) -> Size)
      returns (cmds: seq<Command>, err: Option<Error>)
      ensures (cmds, err) == DrawFrom(TextAdapter(), Settings(xAxis, yAxis, measure), points, 0)
    {
      var textData := TextAdapter();
      ghost var s := Settings(xAxis, yAxis, measure);
      cmds, err := [], None;
      var i := 0;
      while i < |points|
        invariant 0 <= i <= |points|
        invariant DrawFrom(textData, s, points, 0).0 == cmds + DrawFrom(textData, s, points, i).0
        invariant DrawFrom(textData, s, points, 0).1 == DrawFrom(textData, s, points, i).1
      {
        var pt := points[i];
        if !IsNaN(pt.0) && !IsNaN(pt.1) {
          var xPos := xAxis.worldToPhysical(pt.0);
          var yPos := yAxis.worldToPhysical(pt.1);
          cmds := cmds + [Marker(TruncToInt(xPos), TruncToInt(yPos))];
          var text := textData.At(i);
          if text.Failure? {
            err := Some(DrawError);
            return;
          }
          if text.value != "" {
            var size := measure(text.value, font);
            var origin := LabelOrigin(labelTextPosition, xPos, yPos, size, markerSize);
            cmds := cmds + [Command.Text(text.value, font, Solid(Black), origin.0, origin.1)];
          }
        }
        i := i + 1;
      }
      assert DrawFrom(textData, s, points, 0).0 == cmds;
    }
  }
}
