/**
 * The ASP.NET plot surface control: a wrapper around an inner plot surface
 * that renders the plot to a bitmap kept in the user's session, and an
 * `<img>` tag whose URL brings the browser back to the same page with a
 * flag parameter, upon which the control answers with the stored image.
 */
module Web {
  import opened Exceptions
  import opened Drawing

  /** An object of a class that is not part of this model, by identity. */
  datatype Handle = Handle(id: nat)

  datatype XAxisPosition = Top | Bottom
  datatype YAxisPosition = Left | Right

  /** `System.Drawing.Drawing2D.SmoothingMode` */
  datatype SmoothingMode = Invalid | Default | HighSpeed | HighQuality | NoSmoothing | AntiAlias

  /** The readable and writable properties of the inner surface. */
  datatype Settings = Settings(
    title: string, titleFont: Font, padding: int,
    xAxis1: Option<Axis>, yAxis1: Option<Axis>, xAxis2: Option<Axis>, yAxis2: Option<Axis>,
    legend: Option<Handle>, legendZOrder: int, smoothingMode: SmoothingMode,
    autoScaleTitle: bool, autoScaleAutoGeneratedAxes: bool, titleBrush: Option<Handle>)

  /** A call made on the inner surface whose effect there is not part of
      this model. */
  datatype Call =
    | Clear
    | Add(drawable: Handle, xp: Option<XAxisPosition>, yp: Option<YAxisPosition>, zOrder: Option<int>)
    | Remove(drawable: Handle, updateAxes: bool)
    | AddAxesConstraint(constraint: Handle)
    | SetPlotBackColor(color: Rgb)
    | SetPlotBackImage(image: Handle)
    | SetPlotBackBrush(brush: Handle)
    | SetTitleColor(color: Rgb)

  /** The inner `NPlot.PlotSurface2D`: its properties, and the calls it
      has been given. */
  class PlotSurface {
    var settings: Settings
    var calls: seq<Call>

    constructor (initial: Settings)
      ensures settings == initial && calls == []
    {
      settings, calls := initial, [];
    }
  }

  /** The image the control stores: its size, its background fill, and the
      state of the inner surface drawn on it. */
  datatype Bitmap = Bitmap(width: int, height: int, background: Option<Rgb>, settings: Settings, calls: seq<Call>)

  /** A session value: a bitmap or any other object. */
  datatype SessionValue = Image(bitmap: Bitmap) | OtherValue

  /** The user's session state (`Context.Session`). */
  class Session {
    var entries: map<string, SessionValue>

    constructor (entries: map<string, SessionValue>)
      ensures this.entries == entries
    {
      this.entries := entries;
    }
  }

  /** The first value of `name` in a list of (name, value) pairs. */
  function Lookup(pairs: seq<(string, string)>, name: string): (r: Option<string>)
    ensures r.Some? <==> exists k :: 0 <= k < |pairs| && pairs[k].0 == name
    ensures r.Some? ==> exists k :: 0 <= k < |pairs| && pairs[k] == (name, r.value)
  {
    if |pairs| == 0 then None
    else if pairs[0].0 == name then Some(pairs[0].1)
    else Lookup(pairs[1..], name)
  }

  /** An HTTP request: the path of its URL, its query string as the keys in
      `AllKeys` order with their values, and its other parameters (form,
      cookies, server variables). */
  datatype HttpRequest = HttpRequest(absolutePath: string, query: seq<(string, string)>, otherParams: map<string, string>)
  {
    /** `Params[name]`: the query string first, then the rest. */
    function Param(name: string): (r: Option<string>)
      ensures r.Some? <==> (exists k :: 0 <= k < |query| && query[k].0 == name) || name in otherParams
    {
      match Lookup(query, name)
      case Some(v) => Some(v)
      case None => if name in otherParams then Some(otherParams[name]) else None
    }
  }

  /** A parameter that the query string carries is seen by `Params`. */
  lemma QueryParameterIsSeen(request: HttpRequest, k: nat)
    requires k < |request.query|
    ensures request.Param(request.query[k].0).Some?
  {
  }

  /** The key of the session variables of control `clientId` on `page`. */
  function SessionPrefix(clientId: string, page: string): string {
    "__PlotSurface2D_" + clientId + "_" + page + "_"
  }

  /** On one page, different controls never share session variables. */
  lemma SessionPrefixDistinguishesControls(clientId1: string, clientId2: string, page: string)
    requires SessionPrefix(clientId1, page) == SessionPrefix(clientId2, page)
    ensures clientId1 == clientId2
  {
    var p := SessionPrefix(clientId1, page);
    assert |clientId1| == |clientId2|;
    assert clientId1 == p[16..16 + |clientId1|];
    assert clientId2 == SessionPrefix(clientId2, page)[16..16 + |clientId2|];
  }

  /** Across pages they can: an underscore in a control's id or in a page
      name makes the split between the two ambiguous. */
  lemma SessionPrefixCanCollideAcrossPages()
    ensures SessionPrefix("plot_a", "b") == SessionPrefix("plot", "a_b")
  {
  }

  /** The name of the query parameter that asks the control for its image. */
  function FlagParameter(clientId: string): string {
    "PlotSurface2D_" + clientId
  }

  /** What the URL builder appends for each query parameter, in order. */
  function QueryParams(query: seq<(string, string)>, urlEncode: string -> string): (r: string)
  {
    if |query| == 0 then ""
    else
      var last := query[|query| - 1];
      QueryParams(query[..|query| - 1], urlEncode) + last.0 + "=" + urlEncode(last.1) + "&"
  }

  /** The parameters are empty exactly when the query is, and otherwise
      end with the separator '&'. */
  lemma QueryParamsShape(query: seq<(string, string)>, urlEncode: string -> string)
    ensures QueryParams(query, urlEncode) == "" <==> |query| == 0
    ensures |query| > 0 ==> QueryParams(query, urlEncode)[|QueryParams(query, urlEncode)| - 1] == '&'
  {
  }

  /** The URL of the plot image: the page's own path and query string,
      followed by the flag parameter. */
  function PlotUrl(request: HttpRequest, urlEncode: string -> string, clientId: string): string {
    request.absolutePath + "?" + QueryParams(request.query, urlEncode) + FlagParameter(clientId) + "=1"
  }

  /** Without a query string, the URL is the path and the flag only. */
  lemma PlotUrlWithoutQuery(request: HttpRequest, urlEncode: string -> string, clientId: string)
    requires |request.query| == 0
    ensures PlotUrl(request, urlEncode, clientId) == request.absolutePath + "?PlotSurface2D_" + clientId + "=1"
  {
  }

  /** The URL's last parameter is the flag, under exactly the name the
      control tests for when the request comes back. */
  lemma PlotUrlEndsWithFlag(request: HttpRequest, urlEncode: string -> string, clientId: string)
    ensures var url := PlotUrl(request, urlEncode, clientId);
            var n := |FlagParameter(clientId)| + 2;
            |url| > n && url[|url| - n..] == FlagParameter(clientId) + "=1" &&
            url[|url| - n - 1] in {'?', '&'}
  {
    QueryParamsShape(request.query, urlEncode);
    var url := PlotUrl(request, urlEncode, clientId);
    var head := request.absolutePath + "?" + QueryParams(request.query, urlEncode);
    assert url == head + (FlagParameter(clientId) + "=1");
    assert head[|head| - 1] in {'?', '&'};
  }

  /** The image branch of `OnInit`: the reply, and the session after it. */
  datatype Reply = PageContinues | ImageReply(bitmap: Bitmap) | ErrorReply(error: Error)

  /** Serving the image stored under `key`: it is sent and removed; a
      missing entry is a null bitmap and any other value a failed cast, and
      then the session is left as it was. */
  function Serve(entries: map<string, SessionValue>, key: string): (r: (Reply, map<string, SessionValue>))
    ensures r.0.ImageReply? <==> key in entries && entries[key].Image?
    ensures r.0.ImageReply? ==> r.0.bitmap == entries[key].bitmap && r.1 == entries - {key}
    ensures !r.0.ImageReply? ==> r.1 == entries && r.0.ErrorReply?
  {
    if key !in entries then (ErrorReply(NullReference), entries)
    else match entries[key]
      case Image(b) => (ImageReply(b), entries - {key})
      case OtherValue => (ErrorReply(InvalidCast), entries)
  }

  /** An image stored under a key is served once: the first request gets
      it back, and the next finds nothing. */
  lemma StoredImageIsServedOnce(entries: map<string, SessionValue>, key: string, b: Bitmap)
    ensures var stored := entries[key := Image(b)];
            Serve(stored, key) == (ImageReply(b), entries - {key}) &&
            Serve(Serve(stored, key).1, key) == (ErrorReply(NullReference), entries - {key})
  {
    var stored := entries[key := Image(b)];
    assert stored - {key} == entries - {key};
  }

  /** Serving under one key leaves every other session entry alone. */
  lemma ServeKeepsOtherEntries(entries: map<string, SessionValue>, key: string, other: string)
    requires other != key
    ensures other in Serve(entries, key).1 <==> other in entries
    ensures other in entries ==> Serve(entries, key).1[other] == entries[other]
  {
  }

  /** The attributes of the `<img>` tag the control renders. */
  datatype ImageTag = ImageTag(src: Option<string>, alt: string)

  /** `NPlot.Web.PlotSurface2D` */
  class PlotSurface2D {
    const ps: PlotSurface
    const clientId: string
    const page: string
    var plotUrl: Option<string>
    var backColor: Option<Rgb>

    /** A control with the given id on the given page; the inner surface
        starts with the inner surface's own defaults. */
    constructor (clientId: string, page: string, defaults: Settings)
      ensures fresh(ps) && ps.settings == defaults && ps.calls == []
      ensures this.clientId == clientId && this.page == page
      ensures plotUrl == None && backColor == None
    {
      ps := new PlotSurface(defaults);
      this.clientId, this.page := clientId, page;
      plotUrl, backColor := None, None;
    }

    /** `prefix() + "PNG"`: where the rendered bitmap is kept. */
    function SessionKey(): string {
      SessionPrefix(clientId, page) + "PNG"
    }

    // Calls passed on to the inner surface unchanged.  Clearing, adding
    // and removing may also update the inner surface's axes and other
    // settings, so those calls may change its settings as well.

    method Clear()
      modifies ps`settings, ps`calls
      ensures ps.calls == old(ps.calls) + [Call.Clear]
    {
      ps.calls := ps.calls + [Call.Clear];
    }

    method Add(p: Handle)
      modifies ps`settings, ps`calls
      ensures ps.calls == old(ps.calls) + [Call.Add(p, None, None, None)]
    {
      ps.calls := ps.calls + [Call.Add(p, None, None, None)];
    }

    method AddOnAxes(p: Handle, xp: XAxisPosition, yp: YAxisPosition)
      modifies ps`settings, ps`calls
      ensures ps.calls == old(ps.calls) + [Call.Add(p, Some(xp), Some(yp), None)]
    {
      ps.calls := ps.calls + [Call.Add(p, Some(xp), Some(yp), None)];
    }

    method AddWithZOrder(p: Handle, zOrder: int)
      modifies ps`settings, ps`calls
      ensures ps.calls == old(ps.calls) + [Call.Add(p, None, None, Some(zOrder))]
    {
      ps.calls := ps.calls + [Call.Add(p, None, None, Some(zOrder))];
    }

    method AddOnAxesWithZOrder(p: Handle, xp: XAxisPosition, yp: YAxisPosition, zOrder: int)
      modifies ps`settings, ps`calls
      ensures ps.calls == old(ps.calls) + [Call.Add(p, Some(xp), Some(yp), Some(zOrder))]
    {
      ps.calls := ps.calls + [Call.Add(p, Some(xp), Some(yp), Some(zOrder))];
    }

    method Remove(p: Handle, updateAxes: bool)
      modifies ps`settings, ps`calls
      ensures ps.calls == old(ps.calls) + [Call.Remove(p, updateAxes)]
    {
      ps.calls := ps.calls + [Call.Remove(p, updateAxes)];
    }

    method AddAxesConstraint(c: Handle)
      modifies ps`calls
      ensures ps.calls == old(ps.calls) + [Call.AddAxesConstraint(c)]
    {
      ps.calls := ps.calls + [Call.AddAxesConstraint(c)];
    }

    // Write-only properties, passed on to the inner surface.

    method SetPlotBackColor(value: Rgb)
      modifies ps`calls
      ensures ps.calls == old(ps.calls) + [Call.SetPlotBackColor(value)]
    {
      ps.calls := ps.calls + [Call.SetPlotBackColor(value)];
    }

    method SetPlotBackImage(value: Handle)
      modifies ps`calls
      ensures ps.calls == old(ps.calls) + [Call.SetPlotBackImage(value)]
    {
      ps.calls := ps.calls + [Call.SetPlotBackImage(value)];
    }

    method SetPlotBackBrush(value: Handle)
      modifies ps`calls
      ensures ps.calls == old(ps.calls) + [Call.SetPlotBackBrush(value)]
    {
      ps.calls := ps.calls + [Call.SetPlotBackBrush(value)];
    }

    /** The inner surface draws the title with a new solid brush of this
        colour, so the title brush may change, and no other setting. */
    method SetTitleColor(value: Rgb)
      modifies ps`settings, ps`calls
      ensures ps.calls == old(ps.calls) + [Call.SetTitleColor(value)]
      ensures ps.settings == old(ps.settings).(titleBrush := ps.settings.titleBrush)
    {
      ps.calls := ps.calls + [Call.SetTitleColor(value)];
    }

    /** The control's own background colour, used when rendering. */
    method SetBackColor(value: Rgb)
      modifies this`backColor
      ensures backColor == Some(value)
    {
      backColor := Some(value);
    }

    // Properties read from and written to the inner surface.

    function Title(): string reads ps { ps.settings.title }
    function TitleFont(): Font reads ps { ps.settings.titleFont }
    function Padding(): int reads ps { ps.settings.padding }
    function XAxis1(): Option<Axis> reads ps { ps.settings.xAxis1 }
    function YAxis1(): Option<Axis> reads ps { ps.settings.yAxis1 }
    function XAxis2(): Option<Axis> reads ps { ps.settings.xAxis2 }
    function YAxis2(): Option<Axis> reads ps { ps.settings.yAxis2 }
    function Legend(): Option<Handle> reads ps { ps.settings.legend }
    function LegendZOrder(): int reads ps { ps.settings.legendZOrder }
    function Smoothing(): SmoothingMode reads ps { ps.settings.smoothingMode }
    function AutoScaleTitle(): bool reads ps { ps.settings.autoScaleTitle }
    function AutoScaleAutoGeneratedAxes(): bool reads ps { ps.settings.autoScaleAutoGeneratedAxes }
    function TitleBrush(): Option<Handle> reads ps { ps.settings.titleBrush }

    method SetTitle(value: string)
      modifies ps`settings
      ensures ps.settings == old(ps.settings).(title := value) && Title() == value
    {
      ps.settings := ps.settings.(title := value);
    }

    method SetTitleFont(value: Font)
      modifies ps`settings
      ensures ps.settings == old(ps.settings).(titleFont := value) && TitleFont() == value
    {
      ps.settings := ps.settings.(titleFont := value);
    }

    method SetPadding(value: int)
      modifies ps`settings
      ensures ps.settings == old(ps.settings).(padding := value) && Padding() == value
    {
      ps.settings := ps.settings.(padding := value);
    }

    method SetXAxis1(value: Option<Axis>)
      modifies ps`settings
      ensures ps.settings == old(ps.settings).(xAxis1 := value) && XAxis1() == value
    {
      ps.settings := ps.settings.(xAxis1 := value);
    }

    method SetYAxis1(value: Option<Axis>)
      modifies ps`settings
      ensures ps.settings == old(ps.settings).(yAxis1 := value) && YAxis1() == value
    {
      ps.settings := ps.settings.(yAxis1 := value);
    }

    method SetXAxis2(value: Option<Axis>)
      modifies ps`settings
      ensures ps.settings == old(ps.settings).(xAxis2 := value) && XAxis2() == value
    {
      ps.settings := ps.settings.(xAxis2 := value);
    }

    method SetYAxis2(value: Option<Axis>)
      modifies ps`settings
      ensures ps.settings == old(ps.settings).(yAxis2 := value) && YAxis2() == value
    {
      ps.settings := ps.settings.(yAxis2 := value);
    }

    method SetLegend(value: Option<Handle>)
      modifies ps`settings
      ensures ps.settings == old(ps.settings).(legend := value) && Legend() == value
    {
      ps.settings := ps.settings.(legend := value);
    }

    method SetLegendZOrder(value: int)
      modifies ps`settings
      ensures ps.settings == old(ps.settings).(legendZOrder := value) && LegendZOrder() == value
    {
      ps.settings := ps.settings.(legendZOrder := value);
    }

    method SetSmoothing(value: SmoothingMode)
      modifies ps`settings
      ensures ps.settings == old(ps.settings).(smoothingMode := value) && Smoothing() == value
    {
      ps.settings := ps.settings.(smoothingMode := value);
    }

    method SetAutoScaleTitle(value: bool)
      modifies ps`settings
      ensures ps.settings == old(ps.settings).(autoScaleTitle := value) && AutoScaleTitle() == value
    {
      ps.settings := ps.settings.(autoScaleTitle := value);
    }

    method SetAutoScaleAutoGeneratedAxes(value: bool)
      modifies ps`settings
      ensures ps.settings == old(ps.settings).(autoScaleAutoGeneratedAxes := value) && AutoScaleAutoGeneratedAxes() == value
    {
      ps.settings := ps.settings.(autoScaleAutoGeneratedAxes := value);
    }

    method SetTitleBrush(value: Option<Handle>)
      modifies ps`settings
      ensures ps.settings == old(ps.settings).(titleBrush := value) && TitleBrush() == value
    {
      ps.settings := ps.settings.(titleBrush := value);
    }

    /** `buildPlotURL()`: the page's path and query string, each value
        URL-encoded, then the flag parameter. */
    method BuildPlotUrl(request: HttpRequest, urlEncode: string -> string) returns (url: string)
      ensures url == PlotUrl(request, urlEncode, clientId)
    {
      var urlParams := "";
      for k := 0 to |request.query|
        invariant urlParams == QueryParams(request.query[..k], urlEncode)
      {
        var (name, value) := request.query[k];
        assert request.query[..k + 1][..k] == request.query[..k];
        urlParams := urlParams + name + "=" + urlEncode(value) + "&";
      }
      assert request.query[..|request.query|] == request.query;
      if |urlParams| > 0 {
        url := request.absolutePath + "?" + urlParams + FlagParameter(clientId) + "=1";
      } else {
        QueryParamsShape(request.query, urlEncode);
        url := request.absolutePath + "?PlotSurface2D_" + clientId + "=1";
      }
    }

    /** `OnInit`: a request carrying the flag parameter is answered with the
        stored image, which leaves the session, and ends there; any other
        request goes on to the page, with the plot URL built from it. */
    method OnInit(request: HttpRequest, session: Session, urlEncode: string -> string) returns (reply: Reply)
      modifies this`plotUrl, session`entries
      ensures request.Param(FlagParameter(clientId)).None? ==>
                reply == PageContinues && plotUrl == Some(PlotUrl(request, urlEncode, clientId)) &&
                session.entries == old(session.entries)
      ensures request.Param(FlagParameter(clientId)).Some? ==>
                (reply, session.entries) == Serve(old(session.entries), SessionKey()) &&
                plotUrl == old(plotUrl)
    {
      if request.Param(FlagParameter(clientId)).Some? {
        var key := SessionKey();
        if key !in session.entries {
          return ErrorReply(NullReference);
        }
        match session.entries[key]
        case OtherValue =>
          return ErrorReply(InvalidCast);
        case Image(bmp) =>
          session.entries := session.entries - {key};
          return ImageReply(bmp);
      }
      var url := BuildPlotUrl(request, urlEncode);
      plotUrl := Some(url);
      reply := PageContinues;
    }

    /** `Render`: a bitmap of the control's size, filled with its background
        colour if it has one and with the inner surface drawn on it, is
        stored in the session under the key `OnInit` serves; the tag's
        source is the plot URL. A size that is not positive is refused by
        the bitmap constructor. */
    method Render(session: Session, width: int, height: int, toolTip: string) returns (r: Result<ImageTag>)
      modifies session`entries
      ensures width <= 0 || height <= 0 ==> r == Failure(ArgumentError) && session.entries == old(session.entries)
      ensures width > 0 && height > 0 ==>
                r == Success(ImageTag(plotUrl, toolTip)) &&
                session.entries == old(session.entries)[SessionKey() := Image(Bitmap(width, height, backColor, ps.settings, ps.calls))]
    {
      if width <= 0 || height <= 0 {
        return Failure(ArgumentError);
      }
      var b := Bitmap(width, height, backColor, ps.settings, ps.calls);
      session.entries := session.entries[SessionKey() := Image(b)];
      r := Success(ImageTag(plotUrl, toolTip));
    }
  }

  /** A session filled by Render answers an OnInit with the flag with
      exactly that bitmap. */
  lemma RenderedImageIsServed(c: PlotSurface2D, entries: map<string, SessionValue>, b: Bitmap)
    ensures Serve(entries[c.SessionKey() := Image(b)], c.SessionKey()).0 == ImageReply(b)
  {
    StoredImageIsServedOnce(entries, c.SessionKey(), b);
  }
}
