/** `console.img`: dispatch on the kind of image source, then the print
    path for that kind, which ends in `emitImage`-shaped output: an optional
    dimensions line, an optional line of the caller's extra arguments, and
    exactly one styled call, always last.

    Console output is the sequence of log calls made so far; an operation
    returns it with its own calls appended. Image loading, bitmap decoding,
    bitmap transfer and canvas export are browser I/O; they are the `Host`
    parameter, and every asynchronous step is taken to have settled (or,
    for an image load, to never complete).

    The program is modelled twice, selected by `Build`: as written, and with
    its two slips corrected (the unspread arguments of the
    `HTMLCanvasElement` branch and the square export canvas). The end-to-end
    lemmas hold of both, with `RoutedArgs` naming the extra-arguments line
    each one logs. */
module ConsoleExtensions {
  import opened Options
  import opened Text
  import opened ImgStyles
  import opened Printing

  datatype CanvasKind = HtmlCanvas | OffscreenCanvas

  /** Decoded pixels: a size, and the picture itself as an opaque tag. */
  datatype Raster = Raster(width: nat, height: nat, pixels: nat)

  /** A raster with no pixels: one of its sides is zero. */
  predicate IsEmpty(r: Raster) {
    r.width == 0 || r.height == 0
  }

  /** An `HTMLCanvasElement` or an `OffscreenCanvas`. */
  datatype Canvas = Canvas(kind: CanvasKind, raster: Raster)

  /** The value passed as `source`. The canvas of a `Context2D` (a
      `CanvasRenderingContext2D`) is always an HTML canvas in a browser; the
      type admits either kind, which the canvas path treats alike.
      `OffscreenContext2D` is an `OffscreenCanvasRenderingContext2D`, which
      the declared parameter type admits but the dispatch rejects; `Other` is
      any other value. */
  datatype Source =
    | Uri(url: string)
    | ImageBitmap(bitmap: Raster)
    | ImageElement(image: Raster)
    | Surface(canvas: Canvas)
    | Context2D(canvas: Canvas)
    | OffscreenContext2D(canvas: Canvas)
    | Other

  datatype Size = Size(width: nat, height: nat)

  /** The browser I/O the print paths wait on. `loadImage(url)` is the size
      `img.onload` finds, or None when the load never completes;
      `exportDataUri(c)` is the data URI of canvas `c` (`toDataURL`, or
      `convertToBlob` then `FileReader.readAsDataURL` for an offscreen one
      that has pixels to export). */
  datatype Host = Host(loadImage: string -> Option<Size>, exportDataUri: Canvas -> string)

  /** The options `initConsoleLogImg` closes over; `printDimension` may be
      left undefined, which the `if (printDimensions)` test reads as false. */
  datatype Opts = Opts(printDimension: Option<bool>)

  const DefaultOpts: Opts := Opts(Some(true))

  const UnsupportedSourceMessage: string :=
    "unsupported source type, valid types are: string, Canvas or ImageBitmap"

  /** What `console.img` throws synchronously: the `Error` it raises for an
      unsupported source, or the `InvalidStateError` that `drawImage` raises
      when the canvas it copies from has no pixels. */
  datatype Exception = Error(message: string) | InvalidStateError

  /** The program modelled: the source as written, or with its two slips
      corrected. */
  datatype Build = AsWritten | Corrected

  /** The print path a source is handed to, with the extra arguments that
      path receives. */
  datatype Route =
    | CanvasRoute(canvas: Canvas, args: seq<Value>)
    | BitmapRoute(bitmap: Raster, args: seq<Value>)
    | UriRoute(url: string, args: seq<Value>)
    | ImageElementRoute(image: Raster, args: seq<Value>)
    | Unsupported

  predicate IsSupported(source: Source) {
    !source.OffscreenContext2D? && !source.Other?
  }

  /** The dispatch of `console.img`, with the extra arguments spread at
      every branch. A rendering context goes to the canvas path with the
      canvas it is bound to. */
  function Dispatch(source: Source, args: seq<Value>): (r: Route)
    ensures r.Unsupported? <==> !IsSupported(source)
    ensures !r.Unsupported? ==> r.args == args
    ensures source.Surface? || source.Context2D? ==> r == CanvasRoute(source.canvas, args)
    ensures source.Uri? <==> r.UriRoute?
    ensures source.ImageBitmap? <==> r.BitmapRoute?
    ensures source.ImageElement? <==> r.ImageElementRoute?
  {
    match source
    case Surface(c) => CanvasRoute(c, args)
    case Context2D(c) => CanvasRoute(c, args)
    case ImageBitmap(b) => BitmapRoute(b, args)
    case Uri(u) => UriRoute(u, args)
    case ImageElement(i) => ImageElementRoute(i, args)
    case OffscreenContext2D(_) => Unsupported
    case Other => Unsupported
  }

  /** The dispatch as written: the `HTMLCanvasElement` branch passes the
      extra arguments as one array instead of spreading them. */
  function DispatchAsWritten(source: Source, args: seq<Value>): (r: Route)
    ensures !(source.Surface? && source.canvas.kind.HtmlCanvas?) ==> r == Dispatch(source, args)
    ensures source.Surface? && source.canvas.kind.HtmlCanvas? ==> r == CanvasRoute(source.canvas, [Array(args)])
  {
    match source
    case Surface(c) => if c.kind.OffscreenCanvas? then CanvasRoute(c, args) else CanvasRoute(c, [Array(args)])
    case Context2D(c) => CanvasRoute(c, args)
    case ImageBitmap(b) => BitmapRoute(b, args)
    case Uri(u) => UriRoute(u, args)
    case ImageElement(i) => ImageElementRoute(i, args)
    case OffscreenContext2D(_) => Unsupported
    case Other => Unsupported
  }

  function DispatchFor(build: Build, source: Source, args: seq<Value>): Route {
    if build.AsWritten? then DispatchAsWritten(source, args) else Dispatch(source, args)
  }

  /** The extra arguments the print path of `source` logs, in each build. */
  function RoutedArgs(build: Build, source: Source, args: seq<Value>): seq<Value> {
    if build.AsWritten? && source.Surface? && source.canvas.kind.HtmlCanvas? then [Array(args)] else args
  }

  /** The canvas a snapshot is drawn into before export: same kind and
      picture, sized to the scaled box, which is exactly the background size
      of the style the same canvas and scale give. */
  function ScaledCopy(canvas: Canvas, scale: nat): (r: Canvas)
    ensures r.kind == canvas.kind && r.raster.pixels == canvas.raster.pixels
    ensures var style := GetImgStyle(canvas.raster.width, canvas.raster.height, scale);
      r.raster.width == style.width && r.raster.height == style.height
  {
    Canvas(canvas.kind, Raster(canvas.raster.width * scale, canvas.raster.height * scale, canvas.raster.pixels))
  }

  /** The export canvas as written: its height is computed from the source
      canvas's width, so it is always square. */
  function ScaledCopyAsWritten(canvas: Canvas, scale: nat): (r: Canvas)
    ensures r.kind == canvas.kind && r.raster.pixels == canvas.raster.pixels
    ensures r.raster.width == canvas.raster.width * scale
    ensures r.raster.height == r.raster.width
  {
    Canvas(canvas.kind, Raster(canvas.raster.width * scale, canvas.raster.width * scale, canvas.raster.pixels))
  }

  /** The as-written export canvas has the intended size exactly when the
      source canvas is square (or the scale is zero). */
  lemma ScaledCopyAsWrittenAgrees(canvas: Canvas, scale: nat)
    ensures ScaledCopyAsWritten(canvas, scale) == ScaledCopy(canvas, scale)
      <==> scale == 0 || canvas.raster.width == canvas.raster.height
  {
    var w, h := canvas.raster.width, canvas.raster.height;
    if scale != 0 && w != h {
      if w < h {
        assert w * scale < h * scale;
      } else {
        assert h * scale < w * scale;
      }
    }
  }

  /** The export canvas of each build. */
  function CopyFor(build: Build, canvas: Canvas, scale: nat): (r: Canvas)
    ensures r.kind == canvas.kind
  {
    if build.AsWritten? then ScaledCopyAsWritten(canvas, scale) else ScaledCopy(canvas, scale)
  }

  /** In both builds, the copy of a canvas with pixels has pixels itself
      exactly when the scale is not zero. */
  lemma CopyIsEmptyIffScaleZero(build: Build, canvas: Canvas, scale: nat)
    requires !IsEmpty(canvas.raster)
    ensures IsEmpty(CopyFor(build, canvas, scale).raster) <==> scale == 0
  {
  }

  /** The output of one print path once its source is resolved: the
      dimensions line if asked for, the caller's extra arguments if there
      are any, then the styled call. */
  function EmitImage(log: seq<LogCall>, dataUri: string, style: ImgStyle, printDimensions: bool, args: seq<Value>)
    : (r: seq<LogCall>)
    ensures |r| == |log| + (if printDimensions then 1 else 0) + (if |args| > 0 then 1 else 0) + 1
    ensures r[..|log|] == log
    ensures printDimensions ==> r[|log|] == PrintImageDimensions(style)
    ensures |args| > 0 ==> r[|r| - 2] == LogCall(args)
    ensures r[|r| - 1] == PrintFromImgStyle(dataUri, style)
  {
    var dims := if printDimensions then [PrintImageDimensions(style)] else [];
    var extra := if |args| > 0 then [LogCall(args)] else [];
    var styled := PrintFromImgStyle(dataUri, style);
    var tail := dims + extra + [styled];
    assert |tail| == |dims| + |extra| + 1;
    assert tail[|tail| - 1] == styled;
    assert printDimensions ==> tail[0] == PrintImageDimensions(style);
    assert |args| > 0 ==> tail[|tail| - 2] == LogCall(args);
    AppendedAt(log, tail);
    log + tail
  }

  /** Appending keeps the old output as a prefix and puts each new call at
      its offset past it. */
  lemma AppendedAt(log: seq<LogCall>, tail: seq<LogCall>)
    ensures (log + tail)[..|log|] == log
    ensures forall k :: 0 <= k < |tail| ==> (log + tail)[|log| + k] == tail[k]
  {
  }

  /** The output of one print path reads back: the dimensions line (when
      asked for) gives the unscaled size, the extra arguments come just before
      the last call, and the last call decodes to the `+` glyph with paddings
      `floor(h*s/2)`, `floor(w*s/2)`, line height `h*s` and the data URI at
      `w*s` x `h*s`. */
  lemma EmitImageReadsBack(
    log: seq<LogCall>, dataUri: string, width: nat, height: nat, scale: nat,
    printDimensions: bool, args: seq<Value>)
    ensures var out := EmitImage(log, dataUri, GetImgStyle(width, height, scale), printDimensions, args);
      && |out| == |log| + (if printDimensions then 1 else 0) + (if |args| > 0 then 1 else 0) + 1
      && (printDimensions ==> ReportedDimensions(out[|log|]) == Some((width, height)))
      && (printDimensions ==> !IsStyledCall(out[|log|]))
      && (|args| > 0 ==> out[|out| - 2] == LogCall(args))
      && DecodeStyledCall(out[|out| - 1]) == Some(StyledImage(
           Glyph,
           StyleParams(height * scale / 2, width * scale / 2, height * scale),
           Background(dataUri, width * scale, height * scale)))
  {
    var style := GetImgStyle(width, height, scale);
    DimensionsLineReadsBack(style);
    DimensionsLineIsNotStyled(style);
    StyledCallRoundTrip(dataUri, width, height, scale);
  }

  /** What one call leaves behind: the console output, and the exception it
      throws synchronously, if any. */
  datatype Outcome = Outcome(log: seq<LogCall>, thrown: Option<Exception>)

  /** `printFromImageUri`: nothing is printed while the load never
      completes; once it does, the dimensions line (if asked for), the extra
      arguments (if any) and the styled call are appended. What they carry
      is `UriPathReadsBack`. */
  function PrintFromImageUri(host: Host, log: seq<LogCall>, url: string, scale: nat, printDimensions: bool, args: seq<Value>)
    : (r: seq<LogCall>)
    ensures |log| <= |r| && r[..|log|] == log
    ensures host.loadImage(url).None? <==> r == log
    ensures host.loadImage(url).Some? ==>
      |r| == |log| + (if printDimensions then 1 else 0) + (if |args| > 0 then 1 else 0) + 1
  {
    match host.loadImage(url)
    case None => log
    case Some(size) => EmitImage(log, url, GetImgStyle(size.width, size.height, scale), printDimensions, args)
  }

  /** Once the image loads, the dimensions line reports the loaded size and
      the styled call shows the URL itself at the scaled size. */
  lemma UriPathReadsBack(host: Host, log: seq<LogCall>, url: string, scale: nat, printDimensions: bool, args: seq<Value>)
    ensures var r := PrintFromImageUri(host, log, url, scale, printDimensions, args);
      match host.loadImage(url)
      case None => r == log
      case Some(size) =>
      && |r| > |log|
      && (printDimensions ==> ReportedDimensions(r[|log|]) == Some((size.width, size.height)))
      && DecodeStyledCall(r[|r| - 1]) == Some(StyledImage(
           Glyph,
           StyleParams(size.height * scale / 2, size.width * scale / 2, size.height * scale),
           Background(url, size.width * scale, size.height * scale)))
  {
    match host.loadImage(url)
    case None =>
    case Some(size) =>
      EmitImageReadsBack(log, url, size.width, size.height, scale, printDimensions, args);
  }

  /** The data URI the export of `copy` settles to, if any: `convertToBlob`
      rejects for an offscreen canvas with no pixels. */
  function Export(host: Host, copy: Canvas): Option<string> {
    if copy.kind.OffscreenCanvas? && IsEmpty(copy.raster) then None else Some(host.exportDataUri(copy))
  }

  /** `printFromCanvas`: copying from a canvas with no pixels makes
      `drawImage` throw before anything is printed. Otherwise the output is
      printed unless the export fails, which happens exactly for an
      offscreen canvas at scale 0. What the output carries is
      `CanvasPathReadsBack`. */
  function PrintFromCanvas(
    build: Build, host: Host, log: seq<LogCall>,
    canvas: Canvas, scale: nat, printDimensions: bool, args: seq<Value>)
    : (r: Outcome)
    ensures r.thrown.Some? <==> IsEmpty(canvas.raster)
    ensures r.thrown.Some? ==> r.thrown.value == InvalidStateError
    ensures |log| <= |r.log| && r.log[..|log|] == log
    ensures r.log == log <==> IsEmpty(canvas.raster) || (canvas.kind.OffscreenCanvas? && scale == 0)
    ensures r.log != log ==>
      |r.log| == |log| + (if printDimensions then 1 else 0) + (if |args| > 0 then 1 else 0) + 1
  {
    if IsEmpty(canvas.raster) then Outcome(log, Some(InvalidStateError))
    else
      CopyIsEmptyIffScaleZero(build, canvas, scale);
      match Export(host, CopyFor(build, canvas, scale))
      case None => Outcome(log, None)
      case Some(dataUri) =>
        Outcome(EmitImage(log, dataUri, GetImgStyle(canvas.raster.width, canvas.raster.height, scale), printDimensions, args), None)
  }

  /** `printFromImageBitmap`: the bitmap is transferred into a fresh HTML
      canvas of its size, which then takes the canvas path. For a bitmap
      with no pixels `createImageBitmap` rejects, so the asynchronous path
      stops without printing and nothing is thrown to the caller. */
  function PrintFromImageBitmap(
    build: Build, host: Host, log: seq<LogCall>,
    bitmap: Raster, scale: nat, printDimensions: bool, args: seq<Value>)
    : (r: Outcome)
    ensures r.thrown.None? && |log| <= |r.log| && r.log[..|log|] == log
    ensures r.log == log <==> IsEmpty(bitmap)
  {
    if IsEmpty(bitmap) then Outcome(log, None)
    else PrintFromCanvas(build, host, log, Canvas(HtmlCanvas, bitmap), scale, printDimensions, args)
  }

  /** `printFromImageElement`: the element is decoded to a bitmap of its
      natural size, which then takes the bitmap path. Decoding an element
      with no pixels rejects, and nothing is printed. */
  function PrintFromImageElement(
    build: Build, host: Host, log: seq<LogCall>,
    image: Raster, scale: nat, printDimensions: bool, args: seq<Value>)
    : (r: Outcome)
    ensures r.thrown.None? && |log| <= |r.log| && r.log[..|log|] == log
    ensures r.log == log <==> IsEmpty(image)
  {
    if IsEmpty(image) then Outcome(log, None)
    else PrintFromImageBitmap(build, host, log, image, scale, printDimensions, args)
  }

  /** Runs the print path a route names. */
  function Run(build: Build, host: Host, log: seq<LogCall>, route: Route, scale: nat, printDimensions: bool): Outcome
    requires !route.Unsupported?
  {
    match route
    case CanvasRoute(c, a) => PrintFromCanvas(build, host, log, c, scale, printDimensions, a)
    case BitmapRoute(b, a) => PrintFromImageBitmap(build, host, log, b, scale, printDimensions, a)
    case UriRoute(u, a) => Outcome(PrintFromImageUri(host, log, u, scale, printDimensions, a), None)
    case ImageElementRoute(i, a) => PrintFromImageElement(build, host, log, i, scale, printDimensions, a)
  }

  /** The source is a canvas or a 2D context whose canvas has no pixels, so
      the canvas path's `drawImage` throws. */
  predicate DrawsFromEmptyCanvas(source: Source) {
    (source.Surface? || source.Context2D?) && IsEmpty(source.canvas.raster)
  }

  /** `console.img(source, scale, printDimensions, ...args)` installed with
      `opts`, in either build. An omitted scale is 1; an omitted
      `printDimensions` is `opts.printDimension`. An unsupported source
      throws the fixed message, and a canvas with no pixels throws
      `InvalidStateError`; either way nothing is printed. Otherwise nothing
      is thrown and output is only ever appended. */
  function ConsoleImg(
    build: Build, host: Host, opts: Opts, log: seq<LogCall>,
    source: Source, scale: Option<nat>, printDimensions: Option<bool>, args: seq<Value>)
    : (r: Outcome)
    ensures r.thrown.Some? <==> !IsSupported(source) || DrawsFromEmptyCanvas(source)
    ensures !IsSupported(source) ==> r.thrown == Some(Error(UnsupportedSourceMessage))
    ensures IsSupported(source) && DrawsFromEmptyCanvas(source) ==> r.thrown == Some(InvalidStateError)
    ensures r.thrown.Some? ==> r.log == log
    ensures |log| <= |r.log| && r.log[..|log|] == log
  {
    var s := scale.GetOr(1);
    var pd := printDimensions.GetOr(opts.printDimension == Some(true));
    var route := DispatchFor(build, source, args);
    if route.Unsupported? then Outcome(log, Some(Error(UnsupportedSourceMessage)))
    else Run(build, host, log, route, s, pd)
  }

  /** The canonical snapshot a source resolves to: a data URI and the
      unscaled pixel size. */
  datatype Snapshot = Snapshot(dataUri: string, width: nat, height: nat)

  /** The canvas a non-URL source is exported from: a bitmap, or an image
      element decoded to one, is first transferred into a fresh HTML canvas of
      its size; a rendering context stands for the canvas it is bound to. */
  function SourceCanvas(source: Source): Option<Canvas> {
    match source
    case ImageBitmap(b) => Some(Canvas(HtmlCanvas, b))
    case ImageElement(i) => Some(Canvas(HtmlCanvas, i))
    case Surface(c) => Some(c)
    case Context2D(c) => Some(c)
    case _ => None
  }

  /** A URL resolves to itself with the loaded size, if the load completes.
      Every other supported source resolves to the export of its build's
      scaled copy of its `SourceCanvas`, unless that canvas has no pixels or
      is offscreen at scale 0. */
  function Resolve(build: Build, host: Host, source: Source, scale: nat): Option<Snapshot> {
    if source.Uri? then
      match host.loadImage(source.url)
      case None => None
      case Some(size) => Some(Snapshot(source.url, size.width, size.height))
    else
      match SourceCanvas(source)
      case None => None
      case Some(c) =>
        if IsEmpty(c.raster) || (c.kind.OffscreenCanvas? && scale == 0) then None
        else Some(Snapshot(host.exportDataUri(CopyFor(build, c, scale)), c.raster.width, c.raster.height))
  }

  /** Every supported source other than a URL takes the canvas path with its
      `SourceCanvas` and the extra arguments its build routes to it. */
  lemma RunFromSourceCanvas(
    build: Build, host: Host, log: seq<LogCall>,
    source: Source, scale: nat, printDimensions: bool, args: seq<Value>)
    requires IsSupported(source) && !source.Uri?
    ensures SourceCanvas(source).Some?
    ensures Run(build, host, log, DispatchFor(build, source, args), scale, printDimensions).log
      == PrintFromCanvas(build, host, log, SourceCanvas(source).value, scale, printDimensions, RoutedArgs(build, source, args)).log
  {
  }

  /** The output of `console.img` (with the defaults applied) is what the
      resolved snapshot gives through `EmitImage`, with the extra arguments
      the build routes; nothing is printed when the source does not
      resolve. */
  lemma ConsoleImgFollowsResolve(
    build: Build, host: Host, opts: Opts, log: seq<LogCall>,
    source: Source, scale: Option<nat>, printDimensions: Option<bool>, args: seq<Value>)
    ensures var s := scale.GetOr(1);
      var pd := printDimensions.GetOr(opts.printDimension == Some(true));
      var out := ConsoleImg(build, host, opts, log, source, scale, printDimensions, args).log;
      match Resolve(build, host, source, s)
      case None => out == log
      case Some(snap) =>
        out == EmitImage(log, snap.dataUri, GetImgStyle(snap.width, snap.height, s), pd, RoutedArgs(build, source, args))
  {
    var s := scale.GetOr(1);
    var pd := printDimensions.GetOr(opts.printDimension == Some(true));
    var out := ConsoleImg(build, host, opts, log, source, scale, printDimensions, args).log;
    if source.Uri? {
      UriPrintsResolved(build, host, opts, log, source, scale, printDimensions, args);
    } else if IsSupported(source) {
      CanvasSourcePrintsResolved(build, host, opts, log, source, scale, printDimensions, args);
    }
    assert PrintsResolved(build, host, log, source, s, pd, args, out);
  }

  /** `out` is what the snapshot `source` resolves to prints, or `log` if it
      does not resolve. */
  predicate PrintsResolved(
    build: Build, host: Host, log: seq<LogCall>,
    source: Source, scale: nat, printDimensions: bool, args: seq<Value>, out: seq<LogCall>)
  {
    match Resolve(build, host, source, scale)
    case None => out == log
    case Some(snap) =>
      out == EmitImage(log, snap.dataUri, GetImgStyle(snap.width, snap.height, scale), printDimensions, RoutedArgs(build, source, args))
  }

  /** The URL case of `ConsoleImgFollowsResolve`. */
  lemma UriPrintsResolved(
    build: Build, host: Host, opts: Opts, log: seq<LogCall>,
    source: Source, scale: Option<nat>, printDimensions: Option<bool>, args: seq<Value>)
    requires source.Uri?
    ensures var s := scale.GetOr(1);
      var pd := printDimensions.GetOr(opts.printDimension == Some(true));
      PrintsResolved(build, host, log, source, s, pd, args, ConsoleImg(build, host, opts, log, source, scale, printDimensions, args).log)
  {
    ConsoleImgOfUri(build, host, opts, log, source, scale, printDimensions, args);
  }

  /** The case of `ConsoleImgFollowsResolve` for every other supported
      source. */
  lemma CanvasSourcePrintsResolved(
    build: Build, host: Host, opts: Opts, log: seq<LogCall>,
    source: Source, scale: Option<nat>, printDimensions: Option<bool>, args: seq<Value>)
    requires IsSupported(source) && !source.Uri?
    ensures var s := scale.GetOr(1);
      var pd := printDimensions.GetOr(opts.printDimension == Some(true));
      PrintsResolved(build, host, log, source, s, pd, args, ConsoleImg(build, host, opts, log, source, scale, printDimensions, args).log)
  {
    var s := scale.GetOr(1);
    var pd := printDimensions.GetOr(opts.printDimension == Some(true));
    ConsoleImgOfCanvasSource(build, host, opts, log, source, scale, printDimensions, args);
    CanvasPathPrintsResolved(build, host, log, source, s, pd, args);
  }

  /** The canvas path, given a source's `SourceCanvas` and routed extra
      arguments, prints what that source resolves to. */
  lemma CanvasPathPrintsResolved(
    build: Build, host: Host, log: seq<LogCall>,
    source: Source, scale: nat, printDimensions: bool, args: seq<Value>)
    requires !source.Uri? && SourceCanvas(source).Some?
    ensures PrintsResolved(build, host, log, source, scale, printDimensions, args,
      PrintFromCanvas(build, host, log, SourceCanvas(source).value, scale, printDimensions, RoutedArgs(build, source, args)).log)
  {
    var c := SourceCanvas(source).value;
    CanvasPathFollows(build, host, log, c, scale, printDimensions, RoutedArgs(build, source, args));
    ResolveOfSourceCanvas(build, host, source, scale);
  }

  /** A source other than a URL resolves through its `SourceCanvas`. */
  lemma ResolveOfSourceCanvas(build: Build, host: Host, source: Source, scale: nat)
    requires !source.Uri? && SourceCanvas(source).Some?
    ensures var c := SourceCanvas(source).value;
      Resolve(build, host, source, scale)
      == if IsEmpty(c.raster) || (c.kind.OffscreenCanvas? && scale == 0) then None
         else Some(Snapshot(host.exportDataUri(CopyFor(build, c, scale)), c.raster.width, c.raster.height))
  {
  }

  /** A URL takes the URL path, which never throws. */
  lemma ConsoleImgOfUri(
    build: Build, host: Host, opts: Opts, log: seq<LogCall>,
    source: Source, scale: Option<nat>, printDimensions: Option<bool>, args: seq<Value>)
    requires source.Uri?
    ensures ConsoleImg(build, host, opts, log, source, scale, printDimensions, args)
      == Outcome(PrintFromImageUri(host, log, source.url, scale.GetOr(1),
                   printDimensions.GetOr(opts.printDimension == Some(true)), args), None)
  {
    ConsoleImgRuns(build, host, opts, log, source, scale, printDimensions, args);
  }

  /** Every other supported source prints what the canvas path prints for
      its `SourceCanvas`, with the extra arguments its build routes. */
  lemma ConsoleImgOfCanvasSource(
    build: Build, host: Host, opts: Opts, log: seq<LogCall>,
    source: Source, scale: Option<nat>, printDimensions: Option<bool>, args: seq<Value>)
    requires IsSupported(source) && !source.Uri?
    ensures SourceCanvas(source).Some?
    ensures ConsoleImg(build, host, opts, log, source, scale, printDimensions, args).log
      == PrintFromCanvas(build, host, log, SourceCanvas(source).value, scale.GetOr(1),
           printDimensions.GetOr(opts.printDimension == Some(true)), RoutedArgs(build, source, args)).log
  {
    ConsoleImgRuns(build, host, opts, log, source, scale, printDimensions, args);
    RunFromSourceCanvas(build, host, log, source, scale.GetOr(1), printDimensions.GetOr(opts.printDimension == Some(true)), args);
  }

  /** A supported source is handed to the print path its build routes it to,
      with the scale defaulting to 1 and `printDimensions` to the installed
      option. */
  lemma ConsoleImgRuns(
    build: Build, host: Host, opts: Opts, log: seq<LogCall>,
    source: Source, scale: Option<nat>, printDimensions: Option<bool>, args: seq<Value>)
    requires IsSupported(source)
    ensures !DispatchFor(build, source, args).Unsupported?
    ensures ConsoleImg(build, host, opts, log, source, scale, printDimensions, args)
      == Run(build, host, log, DispatchFor(build, source, args), scale.GetOr(1),
             printDimensions.GetOr(opts.printDimension == Some(true)))
  {
  }

  /** The canvas path prints nothing for a canvas with no pixels or an
      offscreen canvas at scale 0, and otherwise what `EmitImage` makes of
      the export of the build's scaled copy. */
  lemma CanvasPathFollows(
    build: Build, host: Host, log: seq<LogCall>,
    canvas: Canvas, scale: nat, printDimensions: bool, args: seq<Value>)
    ensures PrintFromCanvas(build, host, log, canvas, scale, printDimensions, args).log
      == if IsEmpty(canvas.raster) || (canvas.kind.OffscreenCanvas? && scale == 0) then log
         else EmitImage(log, host.exportDataUri(CopyFor(build, canvas, scale)),
                GetImgStyle(canvas.raster.width, canvas.raster.height, scale), printDimensions, args)
  {
  }

  /** When the canvas path prints, the dimensions line reports the canvas's
      own (unscaled) size and the styled call shows the export of the build's
      scaled copy at the scaled size. */
  lemma CanvasPathReadsBack(
    build: Build, host: Host, log: seq<LogCall>,
    canvas: Canvas, scale: nat, printDimensions: bool, args: seq<Value>)
    ensures var r := PrintFromCanvas(build, host, log, canvas, scale, printDimensions, args).log;
      var w, h := canvas.raster.width, canvas.raster.height;
      r != log ==>
      && |r| > |log|
      && (printDimensions ==> ReportedDimensions(r[|log|]) == Some((w, h)))
      && DecodeStyledCall(r[|r| - 1]) == Some(StyledImage(
           Glyph,
           StyleParams(h * scale / 2, w * scale / 2, h * scale),
           Background(host.exportDataUri(CopyFor(build, canvas, scale)), w * scale, h * scale)))
  {
    CanvasPathFollows(build, host, log, canvas, scale, printDimensions, args);
    if !(IsEmpty(canvas.raster) || (canvas.kind.OffscreenCanvas? && scale == 0)) {
      EmitImageReadsBack(log, host.exportDataUri(CopyFor(build, canvas, scale)),
        canvas.raster.width, canvas.raster.height, scale, printDimensions, args);
    }
  }

  /** `out` is `log` followed by the calls one print path makes for `snap`
      at `scale`, as they read back: the dimensions line reporting the
      unscaled size if `printDimensions`, then the extra arguments if there
      are any, then one styled call that decodes to the `+` glyph with
      paddings `floor(h*s/2)`, `floor(w*s/2)`, line height `h*s` and the
      snapshot's data URI at `w*s` x `h*s`. */
  predicate ShowsSnapshot(
    log: seq<LogCall>, out: seq<LogCall>, snap: Snapshot, scale: nat, printDimensions: bool, args: seq<Value>)
  {
    && |out| == |log| + (if printDimensions then 1 else 0) + (if |args| > 0 then 1 else 0) + 1
    && out[..|log|] == log
    && (printDimensions ==> ReportedDimensions(out[|log|]) == Some((snap.width, snap.height)))
    && (|args| > 0 ==> out[|out| - 2] == LogCall(args))
    && DecodeStyledCall(out[|out| - 1]) == Some(StyledImage(
         Glyph,
         StyleParams(snap.height * scale / 2, snap.width * scale / 2, snap.height * scale),
         Background(snap.dataUri, snap.width * scale, snap.height * scale)))
  }

  /** End to end, in either build: when the source resolves, `console.img`
      appends the dimensions line (reporting the unscaled size) if asked,
      then the routed extra arguments if any, then one styled call that
      reads back as the `+` glyph with paddings `floor(h*s/2)`,
      `floor(w*s/2)`, line height `h*s` and the snapshot's data URI at
      `w*s` x `h*s`. When it does not resolve, nothing is appended. */
  lemma ConsoleImgOutput(
    build: Build, host: Host, opts: Opts, log: seq<LogCall>,
    source: Source, scale: Option<nat>, printDimensions: Option<bool>, args: seq<Value>)
    ensures var s := scale.GetOr(1);
      var pd := printDimensions.GetOr(opts.printDimension == Some(true));
      var out := ConsoleImg(build, host, opts, log, source, scale, printDimensions, args).log;
      match Resolve(build, host, source, s)
      case None => out == log
      case Some(snap) => ShowsSnapshot(log, out, snap, s, pd, RoutedArgs(build, source, args))
  {
    var s := scale.GetOr(1);
    var pd := printDimensions.GetOr(opts.printDimension == Some(true));
    ConsoleImgFollowsResolve(build, host, opts, log, source, scale, printDimensions, args);
    match Resolve(build, host, source, s)
    case None =>
    case Some(snap) =>
      EmitImageReadsBack(log, snap.dataUri, snap.width, snap.height, s, pd, RoutedArgs(build, source, args));
  }

  /** As written, an `HTMLCanvasElement` with pixels always logs its extra
      arguments as one array just before the styled call, even when there
      are none; the corrected program logs that line only when there are
      extra arguments, spread. */
  lemma CanvasArgsLineAsWritten(
    host: Host, opts: Opts, log: seq<LogCall>,
    canvas: Canvas, scale: Option<nat>, printDimensions: Option<bool>, args: seq<Value>)
    requires canvas.kind.HtmlCanvas? && !IsEmpty(canvas.raster)
    ensures var pd := printDimensions.GetOr(opts.printDimension == Some(true));
      var out := ConsoleImg(AsWritten, host, opts, log, Surface(canvas), scale, printDimensions, args).log;
      && |out| == |log| + (if pd then 1 else 0) + 2
      && out[|out| - 2] == LogCall([Array(args)])
    ensures var pd := printDimensions.GetOr(opts.printDimension == Some(true));
      var out := ConsoleImg(Corrected, host, opts, log, Surface(canvas), scale, printDimensions, args).log;
      && |out| == |log| + (if pd then 1 else 0) + (if |args| > 0 then 1 else 0) + 1
      && (|args| > 0 ==> out[|out| - 2] == LogCall(args))
  {
    ConsoleImgFollowsResolve(AsWritten, host, opts, log, Surface(canvas), scale, printDimensions, args);
    ConsoleImgFollowsResolve(Corrected, host, opts, log, Surface(canvas), scale, printDimensions, args);
  }

  /** Away from the two slips the builds agree: a source that is not an
      `HTMLCanvasElement`, and whose canvas (if it has one) is square, gives
      the same outcome as written and corrected. */
  lemma BuildsAgree(
    host: Host, opts: Opts, log: seq<LogCall>,
    source: Source, scale: Option<nat>, printDimensions: Option<bool>, args: seq<Value>)
    requires !(source.Surface? && source.canvas.kind.HtmlCanvas?)
    requires SourceCanvas(source).Some? ==> SourceCanvas(source).value.raster.width == SourceCanvas(source).value.raster.height
    ensures ConsoleImg(AsWritten, host, opts, log, source, scale, printDimensions, args)
      == ConsoleImg(Corrected, host, opts, log, source, scale, printDimensions, args)
  {
    if IsSupported(source) {
      var s := scale.GetOr(1);
      var pd := printDimensions.GetOr(opts.printDimension == Some(true));
      ConsoleImgRuns(AsWritten, host, opts, log, source, scale, printDimensions, args);
      ConsoleImgRuns(Corrected, host, opts, log, source, scale, printDimensions, args);
      assert DispatchFor(AsWritten, source, args) == DispatchFor(Corrected, source, args);
      RunBuildsAgree(host, log, DispatchFor(Corrected, source, args), s, pd);
    }
  }

  /** A print path whose canvas or bitmap is square runs the same in both
      builds. */
  lemma RunBuildsAgree(host: Host, log: seq<LogCall>, route: Route, scale: nat, printDimensions: bool)
    requires !route.Unsupported?
    requires route.CanvasRoute? ==> route.canvas.raster.width == route.canvas.raster.height
    requires route.BitmapRoute? ==> route.bitmap.width == route.bitmap.height
    requires route.ImageElementRoute? ==> route.image.width == route.image.height
    ensures Run(AsWritten, host, log, route, scale, printDimensions) == Run(Corrected, host, log, route, scale, printDimensions)
  {
    match route
    case CanvasRoute(c, a) =>
      CanvasPathBuildsAgree(host, log, c, scale, printDimensions, a);
    case BitmapRoute(b, a) =>
      CanvasPathBuildsAgree(host, log, Canvas(HtmlCanvas, b), scale, printDimensions, a);
    case ImageElementRoute(i, a) =>
      CanvasPathBuildsAgree(host, log, Canvas(HtmlCanvas, i), scale, printDimensions, a);
    case UriRoute(_, _) =>
  }

  /** The canvas path of a square canvas runs the same in both builds. */
  lemma CanvasPathBuildsAgree(
    host: Host, log: seq<LogCall>, canvas: Canvas, scale: nat, printDimensions: bool, args: seq<Value>)
    requires canvas.raster.width == canvas.raster.height
    ensures PrintFromCanvas(AsWritten, host, log, canvas, scale, printDimensions, args)
      == PrintFromCanvas(Corrected, host, log, canvas, scale, printDimensions, args)
  {
    ScaledCopyAsWrittenAgrees(canvas, scale);
    assert CopyFor(AsWritten, canvas, scale) == CopyFor(Corrected, canvas, scale);
  }

  /** The CSS text for a 10 x 20 image at scale 2. */
  lemma ExampleStyle()
    ensures GetImgStyle(10, 20, 2).style == "font-size: 1px; padding: 20px 10px; line-height: 40px;"
  {
    assert GetImgStyle(10, 20, 2).style == StyleString(StyleParams(20, 10, 40));
    ExampleStyleString();
  }

  lemma ExampleStyleString()
    ensures StyleString(StyleParams(20, 10, 40)) == "font-size: 1px; padding: 20px 10px; line-height: 40px;"
  {
    ExampleNumerals();
  }

  lemma ExampleNumerals()
    ensures NatToString(10) == "10" && NatToString(20) == "20" && NatToString(40) == "40"
  {
    assert NatToString(1) == "1";
    assert NatToString(2) == "2";
    assert NatToString(4) == "4";
  }

  /** The dimensions line for a 10 x 20 image at scale 2. */
  lemma ExampleDimensions()
    ensures PrintImageDimensions(GetImgStyle(10, 20, 2)) == LogCall([Str("Width = 10px, Height = 20px")])
  {
    ExampleNumerals();
    assert DimensionsText(10, 20) == "Width = 10px, Height = 20px";
  }

  /** The worked case of a 10 x 20 image loaded from a URL, printed at scale
      2 with dimensions and no extra arguments: two calls are appended, the
      dimensions line and then the styled call. */
  lemma UriExampleCalls(host: Host, log: seq<LogCall>, url: string)
    requires host.loadImage(url) == Some(Size(10, 20))
    ensures ConsoleImg(Corrected, host, DefaultOpts, log, Uri(url), Some(2), Some(true), []).log
      == log + [PrintImageDimensions(GetImgStyle(10, 20, 2)), PrintFromImgStyle(url, GetImgStyle(10, 20, 2))]
  {
    ConsoleImgFollowsResolve(Corrected, host, DefaultOpts, log, Uri(url), Some(2), Some(true), []);
    var style := GetImgStyle(10, 20, 2);
    var out := EmitImage(log, url, style, true, []);
    assert out == log + [PrintImageDimensions(style), PrintFromImgStyle(url, style)];
  }

  /** The text of the worked case: the line `Width = 10px, Height = 20px`,
      then `%c+` with CSS text `padding: 20px 10px` and `line-height: 40px`. */
  lemma UriExample(host: Host, log: seq<LogCall>, url: string)
    requires host.loadImage(url) == Some(Size(10, 20))
    ensures var out := ConsoleImg(Corrected, host, DefaultOpts, log, Uri(url), Some(2), Some(true), []).log;
      && |out| == |log| + 2
      && out[..|log|] == log
      && out[|log|] == LogCall([Str("Width = 10px, Height = 20px")])
      && out[|log| + 1].args[0] == Str("%c+")
      && "font-size: 1px; padding: 20px 10px; line-height: 40px;" <= out[|log| + 1].args[1].s
  {
    UriExampleCalls(host, log, url);
    ExampleDimensions();
    ExampleStyle();
    assert Directive + Glyph == "%c+";
  }
}
