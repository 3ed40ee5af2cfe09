# console-log-img: a Dafny model of `console.img`

`console-log-img` adds a `console.img(source, scale, printDimensions, ...args)`
method to the browser console. It shows an image in the log by printing a
single glyph (`+`) styled with CSS. A padding and a line height stretch that
glyph into a box of the scaled image size, and the image is set as the box's
background. The source may be a URL, an `ImageBitmap`, an `HTMLImageElement`,
an `HTMLCanvasElement`, an `OffscreenCanvas` or a `CanvasRenderingContext2D`.

This project models that core as pure functions over immutable data:

- `options.dfy`: the `Option` type. It is also how a JavaScript default
  parameter replaces an omitted argument (`GetOr`).
- `text.dfy`: decimal rendering of naturals, as a template literal or `+`
  renders a non-negative integer below 2^53. It also has readers that
  recover a number from the front or the back of a string, and literal
  prefix/suffix stripping.
- `img_style.dfy`: `getImgStyle`, the style record and its CSS text. A parser
  for the CSS text recovers the numbers it carries.
- `printing.dfy`: the two log calls made from a style. One is the
  dimensions line (`printImageDimensions`); the other is the styled `%c+`
  call (`printFromImgStyle`). Each has a decoder.
- `console_extensions.dfy`: the source dispatch, the four print paths, the
  export canvas, and `console.img` itself. The program is modelled twice,
  selected by a `Build` value: `AsWritten` keeps the code's two slips
  listed under "Findings", and `Corrected` repairs them. The members that
  differ between the builds take the build as a parameter: the dispatch,
  the export copy, the canvas, bitmap and element paths, `Resolve` and
  `console.img` itself, with the end-to-end lemmas about them. Those lemmas
  hold of both builds. The rest (the style, the two log calls, `EmitImage`
  and the URL path) does not depend on the build and takes none.

Console output is a sequence of `LogCall`s, and every operation only appends
to it. Browser I/O is a `Host` parameter with two total functions:

- `loadImage(url)` gives the size `img.onload` finds, or `None` when the load
  never completes.
- `exportDataUri(canvas)` gives the canvas's data URI. For an HTML canvas
  that is `toDataURL`. For an offscreen canvas it is `convertToBlob` followed
  by `FileReader.readAsDataURL`.

Each print path's output is stated through a partner:

- The dimensions line parses back (`ParseDimensions`) to the unscaled size.
- The styled call decodes (`DecodeStyledCall`) to the glyph, the two
  paddings, the line height, the image URL and the scaled background size.
- Each reader accepts only the text the program writes: numerals must be
  written without leading zeros, and the `...Exact` lemmas show that a text
  which reads back is exactly the text rendered from what it reads. So
  reading back pins the printed text, not only the numbers in it.
- `ConsoleImgOutput` states the whole output of one `console.img` call,
  given the snapshot its source resolves to (`Resolve`). The extra-arguments
  line it names is `RoutedArgs`: the arguments themselves, except that the
  as-written build passes an `HTMLCanvasElement`'s arguments as one array.

A call can also throw, or print nothing. `console.img` throws an `Error` with
a fixed message for an unsupported source. It throws `InvalidStateError` when
the canvas or 2D context it is given has no pixels, because `drawImage`
refuses a zero-size source. An offscreen canvas at scale 0 is exported from a
copy with no pixels, so `convertToBlob` rejects and nothing is printed. A
bitmap or image element with no pixels makes `createImageBitmap` reject, and
again nothing is printed. Those rejections happen after `console.img` has
returned, so nothing is thrown to the caller.

The worked case of a 10 x 20 image at scale 2 gives the CSS text
`font-size: 1px; padding: 20px 10px; line-height: 40px;`. The vertical
padding is `floor(20 * 2 / 2) = 20`, as the code computes it.

The CSS text is reproduced as the source writes it. There is no space
between the style text and `background-image`, `background-size` is given
twice, and the repeat keyword is spelled `norepeat`.

## Model

| member | source | states |
|---|---|---|
| Text.NatToString | src/lib/console-extensions.ts:221 | A number renders as at least one digit, and never with a leading zero unless it is the single digit `0`. `DigitsValueOfNatToString` and `ReadNatOfNatToString` read the number back. |
| Text.NatToStringInjective | src/lib/console-extensions.ts:221 | Different numbers render as different text, so a printed size determines the number. |
| Text.NatToStringOfNumeral | src/lib/console-extensions.ts:221 | Every numeral (digits, no leading zero unless it is `0` alone) is the rendering of the number it denotes. |
| Text.ReadNatExactly | src/lib/console-extensions.ts:221 | The front reader yields (n, rest) exactly when the text is the rendering of n followed by text not starting with a digit. A zero-padded numeral never reads back. |
| Text.ReadNatBackExactly | src/lib/console-extensions.ts:260-264 | The back reader yields (pre, n) exactly when the text is pre, not ending in a digit, followed by the rendering of n. |
| ImgStyles.GetImgStyle | src/lib/console-extensions.ts:235-252 | The record keeps the unscaled width and height. Its width and height are the scaled ones (`width*scale`, `height*scale`), it carries the scale, and its glyph is `+`. |
| ImgStyles.GetImgStyleReadsBack | src/lib/console-extensions.ts:243-250 | The CSS text parses back to vertical padding, horizontal padding and line height, in that order. Each padding is the floor of half the scaled extent (twice it is within one pixel below the extent). The line height is the scaled height. |
| ImgStyles.FloorHalfUnique | src/lib/console-extensions.ts:245-247 | The padding rule "twice the padding is the extent or one below it" has exactly one solution, the floor of half the extent, so the parsed paddings are the `Math.floor(x / 2)` values. |
| ImgStyles.StyleStringRoundTrip | src/lib/console-extensions.ts:244-250 | The CSS text for any three numbers parses back to those numbers, whatever follows it. |
| ImgStyles.ParseStylePrefixExact | src/lib/console-extensions.ts:243-250 | Conversely, any text the CSS reader accepts is the CSS text of the numbers it yields, followed by what it leaves over. With `GetImgStyleReadsBack`, the style text is pinned character for character. |
| ImgStyles.ParseStyleExact | src/lib/console-extensions.ts:243-250 | A text that reads as one whole CSS text is the CSS text of its numbers. |
| Printing.PrintImageDimensions | src/lib/console-extensions.ts:219-223 | The dimensions line is one call with a single string argument. |
| Printing.DimensionsLineReadsBack | src/lib/console-extensions.ts:219-223 | The dimensions line parses back to the style's original width and height. |
| Printing.DimensionsLineIsUnscaled | src/lib/console-extensions.ts:219-223 | The dimensions line reports the unscaled size and is the same at every scale. |
| Printing.ReportedDimensionsExact | src/lib/console-extensions.ts:219-223 | A log call reports a size only when it is exactly the dimensions line of that size, so `DimensionsLineReadsBack` pins the line's text. |
| Printing.DimensionsTextRoundTrip | src/lib/console-extensions.ts:221 | `Width = Wpx, Height = Hpx` parses back to (W, H). |
| Printing.ParseDimensionsExact | src/lib/console-extensions.ts:221 | Conversely, the only text that reads as a dimensions line of (W, H) is `Width = Wpx, Height = Hpx`. |
| Printing.PrintFromImgStyle | src/lib/console-extensions.ts:254-266 | The styled call has two arguments. The first is `%c` followed by the style's glyph; the second starts with the style's CSS text. |
| Printing.StyledCallBackground | src/lib/console-extensions.ts:257-264 | After the style's CSS text, the CSS argument decodes to the image URL and the style's scaled width and height. |
| Printing.BackgroundRoundTrip | src/lib/console-extensions.ts:258-264 | The background part decodes back to its URL and sizes, whatever characters the URL holds. |
| Printing.DecodeBackgroundExact | src/lib/console-extensions.ts:258-264 | Conversely, a text that decodes as a background part is exactly the background text of its URL and sizes. |
| Printing.StyledCallRoundTrip | src/lib/console-extensions.ts:254-266 | The styled call for a w x h image at scale s decodes to glyph `+`, paddings `floor(h*s/2)` and `floor(w*s/2)`, line height `h*s`, and the URL at `w*s` x `h*s`. |
| Printing.DecodeStyledCallExact | src/lib/console-extensions.ts:254-266 | A call decodes as a styled call only when it is exactly `%c` and its glyph, then the CSS text of its numbers followed by the background text. So `StyledCallRoundTrip` pins the whole call, and so do the end-to-end lemmas that decode it. |
| ConsoleExtensions.Dispatch | src/lib/console-extensions.ts:59-76 | Corrected build. A source is rejected exactly when it is not a supported kind. A supported source keeps the extra arguments, spread. An offscreen or HTML canvas, or a 2D context's canvas, goes to the canvas path. A URL, a bitmap and an image element each go to their own path, and only they do. |
| ConsoleExtensions.DispatchAsWritten | src/lib/console-extensions.ts:59-76 | As-written build. Agrees with `Dispatch` everywhere except an `HTMLCanvasElement` source, whose extra arguments are passed as one array. |
| ConsoleExtensions.ScaledCopy | src/lib/console-extensions.ts:114-115 | Corrected build. The export canvas has the kind and picture of the source canvas. Its size is exactly the scaled box of the style that the same canvas and scale give. |
| ConsoleExtensions.ScaledCopyAsWritten | src/lib/console-extensions.ts:114-115 | As-written build. The export canvas has width `width*scale`, and is always square. |
| ConsoleExtensions.ScaledCopyAsWrittenAgrees | src/lib/console-extensions.ts:114-115 | The as-written export canvas has the intended size exactly when the source canvas is square, or the scale is 0. |
| ConsoleExtensions.CopyIsEmptyIffScaleZero | src/lib/console-extensions.ts:114-123 | In both builds, the export copy of a canvas with pixels has no pixels exactly when the scale is 0. |
| ConsoleExtensions.EmitImage | src/lib/console-extensions.ts:168-181 | The old output is kept as a prefix. After it come the dimensions line (only if asked for), then the extra arguments as one call (only if there are any), then the styled call, always last. |
| ConsoleExtensions.EmitImageReadsBack | src/lib/console-extensions.ts:168-181 | One print path's output reads back: the dimensions line gives the unscaled size and is not a styled call, the extra arguments come just before the last call, and the last call decodes to the scaled style and the data URI. |
| ConsoleExtensions.PrintFromImageUri | src/lib/console-extensions.ts:79-100 | The old output is kept. Nothing is printed exactly when the image load never completes; otherwise the dimensions line, the extra arguments and the styled call are appended. |
| ConsoleExtensions.UriPathReadsBack | src/lib/console-extensions.ts:87-96 | Once the image loads, the dimensions line reports the loaded size, and the styled call shows the URL itself at the scaled size. |
| ConsoleExtensions.PrintFromCanvas | src/lib/console-extensions.ts:105-182 | A canvas with no pixels makes `drawImage` throw `InvalidStateError`, and it is the only thing that throws. Nothing is printed exactly when it throws or when an offscreen canvas is exported at scale 0 (`convertToBlob` rejects). Otherwise the three-part output is appended after the old output. |
| ConsoleExtensions.CanvasPathReadsBack | src/lib/console-extensions.ts:168-181 | When the canvas path prints, the dimensions line reports the canvas's own size and the styled call shows the export of the scaled copy at the scaled size. |
| ConsoleExtensions.PrintFromImageBitmap | src/lib/console-extensions.ts:190-203 | Nothing is thrown. A bitmap with no pixels prints nothing, because `createImageBitmap` rejects; any other bitmap prints. The old output is kept. |
| ConsoleExtensions.PrintFromImageElement | src/lib/console-extensions.ts:205-213 | Nothing is thrown. An image element with no pixels prints nothing, because decoding it rejects; any other element prints. The old output is kept. |
| ConsoleExtensions.RunFromSourceCanvas | src/lib/console-extensions.ts:190-213 | A bitmap or an image element reaches the canvas path through a fresh HTML canvas of its own size. A canvas or a 2D context reaches it with its own canvas, and with the extra arguments its build routes. |
| ConsoleExtensions.ConsoleImg | src/lib/console-extensions.ts:43-77 | `console.img` throws exactly for an unsupported source (the fixed `Error` message) or a canvas or 2D context with no pixels (`InvalidStateError`). When it throws, nothing is printed. In every case output is only ever appended. |
| ConsoleExtensions.ConsoleImgOfUri | src/lib/console-extensions.ts:66-67 | A URL source takes the URL path and never throws. |
| ConsoleExtensions.ConsoleImgOfCanvasSource | src/lib/console-extensions.ts:59-71 | Every other supported source prints what the canvas path prints for its canvas, with the routed extra arguments. |
| ConsoleExtensions.ConsoleImgFollowsResolve | src/lib/console-extensions.ts:43-213 | In either build, the output of `console.img` is `EmitImage` applied to the snapshot its source resolves to, with the routed extra arguments. When the source does not resolve, nothing is printed. |
| ConsoleExtensions.ConsoleImgOutput | src/lib/console-extensions.ts:43-213 | End to end, in either build: `console.img` appends the dimensions line reporting the unscaled size (if asked), then the routed extra arguments (if any). Last comes one styled call that decodes to the `+` glyph, the floor-half paddings, the scaled line height, and the snapshot's data URI at the scaled size. |
| ConsoleExtensions.CanvasArgsLineAsWritten | src/lib/console-extensions.ts:70-71 | As written, an `HTMLCanvasElement` with pixels always logs one array of its extra arguments just before the styled call, even when there are none. Corrected, that line appears only when there are extra arguments, and it holds them spread. |
| ConsoleExtensions.BuildsAgree | src/lib/console-extensions.ts:59-182 | Away from the two slips, the builds give the same outcome: any source that is not an `HTMLCanvasElement` and whose canvas, if any, is square. |
| ConsoleExtensions.RunBuildsAgree | src/lib/console-extensions.ts:59-213 | A print path whose canvas, bitmap or image is square runs the same in both builds. |
| ConsoleExtensions.CanvasPathBuildsAgree | src/lib/console-extensions.ts:105-182 | The canvas path of a square canvas runs the same in both builds. |
| ConsoleExtensions.ExampleStyle | src/lib/console-extensions.ts:243-250 | A 10 x 20 image at scale 2 gets the CSS text `font-size: 1px; padding: 20px 10px; line-height: 40px;`. |
| ConsoleExtensions.ExampleDimensions | src/lib/console-extensions.ts:219-223 | The dimensions line for that image is `Width = 10px, Height = 20px`. |
| ConsoleExtensions.UriExample | src/lib/console-extensions.ts:87-96 | Loaded from a URL with dimensions and no extra arguments, that image appends exactly two calls. The first is the dimensions line. The second is `%c+` whose CSS argument starts with the CSS text above. |

## Left out

- Image loading, bitmap decoding, bitmap transfer and canvas export are browser I/O. They are the `Host` functions, and every promise and `onload` is taken to have settled. A load that never completes is `None`.
- Canvas allocation and `drawImage` are not modelled as pixel operations. The export canvas is a size and an opaque picture tag (`ScaledCopy`), and the pixels it holds are not modelled.
- The only failures modelled are the ones a pixel count decides: `drawImage` from a canvas with no pixels, `convertToBlob` on an empty offscreen copy, and `createImageBitmap` on an empty bitmap or image element. Other browser failures (a tainted canvas that refuses export, a broken image, running out of memory for a large copy) are left out, because they depend on state the model does not hold.
- Asynchronous interleaving between several `console.img` calls is left out. Each call's output is appended as one block.
- Installing `console.img` on the global console (`initConsoleLogImg`) is modelled only as the `Opts` value it closes over.
- `img.style.background` (line 99) is left out: it sets a style on an element that is never shown, so it produces no output.
- The scale is a natural number. Fractional and negative scales, and how JavaScript renders the resulting non-integer or negative numbers, are left out. The source does not validate the scale, and neither does the model.
- Text.NatToString: renders every natural in plain decimal digits, with no bound. A JavaScript number is an exact integer only below 2^53, and prints in exponent form from 10^21. The model assumes image sizes and their scaled products stay below 2^53, as every real image does. The size and style statements above, `ConsoleImgOutput` included, hold under that assumption.
- `OffscreenCanvasRenderingContext2D` is admitted by the declared parameter type, but the dispatch has no branch for it. It is modelled as a source that throws.
- `createCanvas`, `createOffscreenCanvas` and the other canvas helpers after line 266 are not part of this model.

## Findings

| source | as written | input that shows it | evidently intended | confidence | as-written member | corrected member |
|---|---|---|---|---|---|---|
| src/lib/console-extensions.ts:115 | `newH` is `canvas.width * scale` | a 10 x 20 canvas at scale 1: the export canvas is 10 x 10, while the background box is 10 x 20 | `newH` is `canvas.height * scale` | high, not executed | ConsoleExtensions.ScaledCopyAsWrittenAgrees | ConsoleExtensions.ScaledCopy |
| src/lib/console-extensions.ts:71 | the `HTMLCanvasElement` branch passes `args`, not `...args` | an `HTMLCanvasElement` with pixels and no extra arguments logs `[]` before the image | the arguments are spread as at every other branch | high, not executed | ConsoleExtensions.CanvasArgsLineAsWritten | ConsoleExtensions.Dispatch |
