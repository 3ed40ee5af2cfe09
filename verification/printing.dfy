/** The two log calls built from an `ImgStyle`: the plain dimensions line
    (`printImageDimensions`) and the styled `%c+` call that shows the image
    (`printFromImgStyle`). Each has a reader that recovers what it carries. */
module Printing {
  import opened Options
  import opened Text
  import opened ImgStyles

  /** A value handed to the console: a string, an array (the forwarding
      slip at the `HTMLCanvasElement` branch produces one), or any other
      caller value, identified only by a tag. */
  datatype Value = Str(s: string) | Array(items: seq<Value>) | Opaque(tag: nat)

  /** One `console.log(...)` call, with its arguments in order. */
  datatype LogCall = LogCall(args: seq<Value>)

  const WidthLabel: string := "Width = "
  const HeightLabel: string := "px, Height = "
  const PixelUnit: string := "px"

  const Directive: string := "%c"
  const BackgroundImageOpen: string := "background-image: url("
  const BackgroundSizeLabel: string := "); background-size: "
  const BackgroundSizeSeparator: string := "px "
  /** Written as the source writes it, including the second `background-size`
      and the `norepeat` keyword. */
  const BackgroundTail: string :=
    "px; background-size: 100% 100%; background-repeat: norepeat; color: transparent;"

  /** The text of the dimensions line. */
  function DimensionsText(width: nat, height: nat): string {
    WidthLabel + NatToString(width) + HeightLabel + NatToString(height) + PixelUnit
  }

  /** Reads a string that is exactly one dimensions line. */
  function ParseDimensions(s: string): Option<(nat, nat)> {
    var r0 :- StripPrefix(s, WidthLabel);
    var w :- ReadNat(r0);
    var r1 :- StripPrefix(w.1, HeightLabel);
    var h :- ReadNat(r1);
    var rest :- StripPrefix(h.1, PixelUnit);
    if rest == [] then Some((w.0, h.0)) else None
  }

  lemma DimensionsTextRoundTrip(width: nat, height: nat)
    ensures ParseDimensions(DimensionsText(width, height)) == Some((width, height))
  {
    var nw, nh := NatToString(width), NatToString(height);
    var t1 := HeightLabel + (nh + PixelUnit);
    assert DimensionsText(width, height) == WidthLabel + (nw + t1) by {
      ConcatRebracket5(WidthLabel, nw, HeightLabel, nh, PixelUnit);
    }
    StripPrefixOfConcat(WidthLabel, nw + t1);
    ReadNatOfNatToString(width, t1);
    StripPrefixOfConcat(HeightLabel, nh + PixelUnit);
    ReadNatOfNatToString(height, PixelUnit);
    assert PixelUnit + [] == PixelUnit;
    StripPrefixOfConcat(PixelUnit, []);
    assert ParseDimensions(WidthLabel + (nw + t1)) == Some((width, height));
  }

  /** The converse: the only text that reads as a dimensions line for a
      size is the dimensions text of that size. */
  lemma ParseDimensionsExact(s: string)
    ensures ParseDimensions(s).Some? ==>
      s == DimensionsText(ParseDimensions(s).value.0, ParseDimensions(s).value.1)
  {
    if ParseDimensions(s).Some? {
      var r0 := StripPrefix(s, WidthLabel).value;
      var w := ReadNat(r0).value;
      var r1 := StripPrefix(w.1, HeightLabel).value;
      var h := ReadNat(r1).value;
      var nw, nh := NatToString(w.0), NatToString(h.0);
      assert ParseDimensions(s) == Some((w.0, h.0));
      assert h.1 == PixelUnit;
      calc {
        s;
        WidthLabel + r0;
        WidthLabel + (nw + w.1);
        WidthLabel + (nw + (HeightLabel + r1));
        WidthLabel + (nw + (HeightLabel + (nh + PixelUnit)));
        { ConcatRebracket5(WidthLabel, nw, HeightLabel, nh, PixelUnit); }
        DimensionsText(w.0, h.0);
      }
    }
  }

  /** `printImageDimensions(style)`: a call with one string argument. */
  function PrintImageDimensions(style: ImgStyle): (r: LogCall)
    ensures |r.args| == 1 && r.args[0].Str?
  {
    LogCall([Str(DimensionsText(style.originalWidth, style.originalHeight))])
  }

  /** The size a log call reports, when it is a dimensions line. */
  function ReportedDimensions(c: LogCall): Option<(nat, nat)> {
    if |c.args| == 1 && c.args[0].Str? then ParseDimensions(c.args[0].s) else None
  }

  /** The dimensions line reads back as the style's unscaled width and
      height. */
  lemma DimensionsLineReadsBack(style: ImgStyle)
    ensures ReportedDimensions(PrintImageDimensions(style))
      == Some((style.originalWidth, style.originalHeight))
  {
    DimensionsTextRoundTrip(style.originalWidth, style.originalHeight);
  }

  /** The dimensions line reports the unscaled size, whatever the scale. */
  lemma DimensionsLineIsUnscaled(width: nat, height: nat, scale: nat)
    ensures ReportedDimensions(PrintImageDimensions(GetImgStyle(width, height, scale)))
      == Some((width, height))
    ensures PrintImageDimensions(GetImgStyle(width, height, scale))
      == PrintImageDimensions(GetImgStyle(width, height, 1))
  {
    DimensionsLineReadsBack(GetImgStyle(width, height, scale));
  }

  /** What the background part of the styled CSS argument carries. */
  datatype Background = Background(url: string, width: nat, height: nat)

  /** The part of the styled CSS argument that follows the `ImgStyle` CSS text. */
  function BackgroundText(b: Background): string {
    BackgroundImageOpen + b.url + BackgroundSizeLabel + NatToString(b.width)
      + BackgroundSizeSeparator + NatToString(b.height) + BackgroundTail
  }

  /** Reads a background part. The URL may hold any character, so the sizes
      are read from the back and the URL is what lies between the fixed texts. */
  function DecodeBackground(s: string): Option<Background> {
    var r0 :- StripPrefix(s, BackgroundImageOpen);
    var r1 :- StripSuffix(r0, BackgroundTail);
    var h :- ReadNatBack(r1);
    var r2 :- StripSuffix(h.0, BackgroundSizeSeparator);
    var w :- ReadNatBack(r2);
    var url :- StripSuffix(w.0, BackgroundSizeLabel);
    Some(Background(url, w.1, h.1))
  }

  lemma BackgroundRoundTrip(b: Background)
    ensures DecodeBackground(BackgroundText(b)) == Some(b)
  {
    var nw, nh := NatToString(b.width), NatToString(b.height);
    var pre1 := b.url + BackgroundSizeLabel;
    var pre2 := pre1 + nw + BackgroundSizeSeparator;
    var r0 := pre2 + nh + BackgroundTail;
    assert BackgroundText(b) == BackgroundImageOpen + r0 by {
      ConcatDetachHead7(BackgroundImageOpen, b.url, BackgroundSizeLabel, nw, BackgroundSizeSeparator, nh, BackgroundTail);
    }
    StripPrefixOfConcat(BackgroundImageOpen, r0);
    StripSuffixOfConcat(pre2 + nh, BackgroundTail);
    ReadNatBackOfNatToString(pre2, b.height);
    StripSuffixOfConcat(pre1 + nw, BackgroundSizeSeparator);
    ReadNatBackOfNatToString(pre1, b.width);
    StripSuffixOfConcat(b.url, BackgroundSizeLabel);
    assert DecodeBackground(BackgroundImageOpen + r0) == Some(b);
  }

  /** The converse: a text that decodes as a background part is exactly
      the background text of what it decodes to. */
  lemma DecodeBackgroundExact(s: string)
    ensures DecodeBackground(s).Some? ==> s == BackgroundText(DecodeBackground(s).value)
  {
    if DecodeBackground(s).Some? {
      var r0 := StripPrefix(s, BackgroundImageOpen).value;
      var r1 := StripSuffix(r0, BackgroundTail).value;
      var h := ReadNatBack(r1).value;
      var r2 := StripSuffix(h.0, BackgroundSizeSeparator).value;
      var w := ReadNatBack(r2).value;
      var url := StripSuffix(w.0, BackgroundSizeLabel).value;
      ConcatDetachHead7(BackgroundImageOpen, url, BackgroundSizeLabel, NatToString(w.1),
        BackgroundSizeSeparator, NatToString(h.1), BackgroundTail);
    }
  }

  /** `printFromImgStyle(imgUrl, style)`: the format argument is the `%c`
      directive followed by the glyph, and the CSS argument starts with the
      style's CSS text; what follows that text is `StyledCallBackground`. */
  function PrintFromImgStyle(imgUrl: string, style: ImgStyle): (r: LogCall)
    ensures |r.args| == 2 && r.args[0] == Str(Directive + style.glyph)
    ensures r.args[1].Str? && style.style <= r.args[1].s
  {
    LogCall([Str(Directive + style.glyph), Str(style.style + BackgroundText(Background(imgUrl, style.width, style.height)))])
  }

  /** After the style's CSS text, the CSS argument of the styled call reads
      back as a background carrying the URL and the style's scaled size. */
  lemma StyledCallBackground(imgUrl: string, style: ImgStyle)
    ensures var css := PrintFromImgStyle(imgUrl, style).args[1].s;
      DecodeBackground(css[|style.style|..]) == Some(Background(imgUrl, style.width, style.height))
  {
    var b := Background(imgUrl, style.width, style.height);
    BackgroundRoundTrip(b);
    assert (style.style + BackgroundText(b))[|style.style|..] == BackgroundText(b);
  }

  /** Everything a styled call carries. */
  datatype StyledImage = StyledImage(glyph: string, params: StyleParams, background: Background)

  /** Reads a styled call: a `%c` format argument and a CSS argument made of
      an `ImgStyle` CSS text followed by a background part. */
  function DecodeStyledCall(c: LogCall): Option<StyledImage> {
    if |c.args| != 2 || !c.args[0].Str? || !c.args[1].Str? then None
    else
      var glyph :- StripPrefix(c.args[0].s, Directive);
      var sp :- ParseStylePrefix(c.args[1].s);
      var bg :- DecodeBackground(sp.1);
      Some(StyledImage(glyph, sp.0, bg))
  }

  predicate IsStyledCall(c: LogCall) {
    DecodeStyledCall(c).Some?
  }

  /** The styled call for an image of `width` x `height` at `scale` reads
      back as the `+` glyph, paddings `floor(h*s/2)` and `floor(w*s/2)`,
      line height `h*s`, and a background of the URL at `w*s` x `h*s`. */
  lemma StyledCallRoundTrip(imgUrl: string, width: nat, height: nat, scale: nat)
    ensures DecodeStyledCall(PrintFromImgStyle(imgUrl, GetImgStyle(width, height, scale)))
      == Some(StyledImage(
           Glyph,
           StyleParams(height * scale / 2, width * scale / 2, height * scale),
           Background(imgUrl, width * scale, height * scale)))
  {
    var style := GetImgStyle(width, height, scale);
    var p := StyleParams(height * scale / 2, width * scale / 2, height * scale);
    var b := Background(imgUrl, width * scale, height * scale);
    assert style.style == StyleString(p);
    StyleStringRoundTrip(p, BackgroundText(b));
    BackgroundRoundTrip(b);
    StripPrefixOfConcat(Directive, Glyph);
  }

  /** A call reports a size only when it is exactly the dimensions line of
      that size. */
  lemma ReportedDimensionsExact(c: LogCall)
    ensures ReportedDimensions(c).Some? ==>
      c == LogCall([Str(DimensionsText(ReportedDimensions(c).value.0, ReportedDimensions(c).value.1))])
  {
    if ReportedDimensions(c).Some? {
      ParseDimensionsExact(c.args[0].s);
      assert c.args == [c.args[0]];
    }
  }

  /** A CSS argument that reads as a CSS text followed by a background part
      is exactly those two texts, joined. */
  lemma StyledCssExact(css: string)
    requires ParseStylePrefix(css).Some?
    requires DecodeBackground(ParseStylePrefix(css).value.1).Some?
    ensures css == StyleString(ParseStylePrefix(css).value.0)
      + BackgroundText(DecodeBackground(ParseStylePrefix(css).value.1).value)
  {
    ParseStylePrefixExact(css);
    DecodeBackgroundExact(ParseStylePrefix(css).value.1);
  }

  /** A call decodes as a styled call only when it is exactly the `%c`
      format of its glyph and the CSS text of its numbers followed by the
      background text: the decoded parts determine the whole call. */
  lemma DecodeStyledCallExact(c: LogCall)
    ensures DecodeStyledCall(c).Some? ==>
      var d := DecodeStyledCall(c).value;
      c == LogCall([Str(Directive + d.glyph), Str(StyleString(d.params) + BackgroundText(d.background))])
  {
    if DecodeStyledCall(c).Some? {
      var d := DecodeStyledCall(c).value;
      StyledCallArgs(c);
      assert c.args == [Str(Directive + d.glyph), Str(StyleString(d.params) + BackgroundText(d.background))];
    }
  }

  /** Each argument of a decoded styled call, as text. */
  lemma StyledCallArgs(c: LogCall)
    requires DecodeStyledCall(c).Some?
    ensures |c.args| == 2 && c.args[0].Str? && c.args[1].Str?
    ensures c.args[0].s == Directive + DecodeStyledCall(c).value.glyph
    ensures c.args[1].s == StyleString(DecodeStyledCall(c).value.params) + BackgroundText(DecodeStyledCall(c).value.background)
  {
    StyledCssExact(c.args[1].s);
  }

  /** A dimensions line is never mistaken for a styled call. */
  lemma DimensionsLineIsNotStyled(style: ImgStyle)
    ensures !IsStyledCall(PrintImageDimensions(style))
  {
  }
}
