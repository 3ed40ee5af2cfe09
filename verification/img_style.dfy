/** Style synthesis (`getImgStyle`): from an image's pixel size and a scale
    factor, the record that makes the one-glyph log line `+` expand into a
    box of the scaled size. The box comes from the padding and the line
    height of the CSS text. */
module ImgStyles {
  import opened Options
  import opened Text

  /** The single glyph every image is printed as. */
  const Glyph: string := "+"

  const FontSizeAndPadding: string := "font-size: 1px; padding: "
  const PaddingSeparator: string := "px "
  const LineHeightLabel: string := "px; line-height: "
  const StyleTerminator: string := "px;"

  /** The record `getImgStyle` returns: the unscaled size, the scaled size,
      the scale, the glyph and the CSS text. */
  datatype ImgStyle = ImgStyle(
    originalWidth: nat,
    originalHeight: nat,
    width: nat,
    height: nat,
    scale: nat,
    glyph: string,
    style: string)

  /** The three numbers the CSS text carries, in the order they appear:
      vertical padding, horizontal padding, line height (all in px). */
  datatype StyleParams = StyleParams(paddingV: nat, paddingH: nat, lineHeight: nat)

  /** `q` is the floor of `x / 2`: twice the padding never exceeds the
      scaled extent and falls short of it by at most one pixel. */
  predicate IsFloorHalf(q: nat, x: nat) {
    2 * q <= x <= 2 * q + 1
  }

  /** The CSS text for the given numbers. */
  function StyleString(p: StyleParams): string {
    FontSizeAndPadding + NatToString(p.paddingV) + PaddingSeparator + NatToString(p.paddingH)
      + LineHeightLabel + NatToString(p.lineHeight) + StyleTerminator
  }

  /** Reads a CSS text of the `StyleString` shape from the front of `s` and
      returns its numbers and whatever follows it. */
  function ParseStylePrefix(s: string): Option<(StyleParams, string)> {
    var r0 :- StripPrefix(s, FontSizeAndPadding);
    var v :- ReadNat(r0);
    var r1 :- StripPrefix(v.1, PaddingSeparator);
    var h :- ReadNat(r1);
    var r2 :- StripPrefix(h.1, LineHeightLabel);
    var l :- ReadNat(r2);
    var rest :- StripPrefix(l.1, StyleTerminator);
    Some((StyleParams(v.0, h.0, l.0), rest))
  }

  /** Reads a string that is exactly one CSS text of the `StyleString` shape. */
  function ParseStyle(s: string): Option<StyleParams> {
    var pr :- ParseStylePrefix(s);
    if pr.1 == [] then Some(pr.0) else None
  }

  /** The CSS text can be read back, whatever text is appended to it. */
  lemma StyleStringRoundTrip(p: StyleParams, rest: string)
    ensures ParseStylePrefix(StyleString(p) + rest) == Some((p, rest))
  {
    var nv, nh, nl := NatToString(p.paddingV), NatToString(p.paddingH), NatToString(p.lineHeight);
    var t3 := StyleTerminator + rest;
    var t2 := LineHeightLabel + (nl + t3);
    var t1 := PaddingSeparator + (nh + t2);
    var t0 := nv + t1;
    assert StyleString(p) + rest == FontSizeAndPadding + t0 by {
      ConcatRebracket(FontSizeAndPadding, nv, PaddingSeparator, nh, LineHeightLabel, nl, StyleTerminator, rest);
    }
    StripPrefixOfConcat(FontSizeAndPadding, t0);
    ReadNatOfNatToString(p.paddingV, t1);
    StripPrefixOfConcat(PaddingSeparator, nh + t2);
    ReadNatOfNatToString(p.paddingH, t2);
    StripPrefixOfConcat(LineHeightLabel, nl + t3);
    ReadNatOfNatToString(p.lineHeight, t3);
    StripPrefixOfConcat(StyleTerminator, rest);
    assert ParseStylePrefix(FontSizeAndPadding + t0) == Some((p, rest));
  }

  /** The converse: a text the reader accepts is exactly the CSS text of
      the numbers it yields, followed by what it leaves over. So no other
      spelling of those numbers (a zero-padded one, say) reads back. */
  lemma ParseStylePrefixExact(s: string)
    ensures ParseStylePrefix(s).Some? ==>
      s == StyleString(ParseStylePrefix(s).value.0) + ParseStylePrefix(s).value.1
  {
    if ParseStylePrefix(s).Some? {
      var r0 := StripPrefix(s, FontSizeAndPadding).value;
      var v := ReadNat(r0).value;
      var r1 := StripPrefix(v.1, PaddingSeparator).value;
      var h := ReadNat(r1).value;
      var r2 := StripPrefix(h.1, LineHeightLabel).value;
      var l := ReadNat(r2).value;
      var rest := StripPrefix(l.1, StyleTerminator).value;
      ConcatRebracket(FontSizeAndPadding, NatToString(v.0), PaddingSeparator, NatToString(h.0),
        LineHeightLabel, NatToString(l.0), StyleTerminator, rest);
    }
  }

  /** A string that reads as one CSS text is the CSS text of its numbers. */
  lemma ParseStyleExact(s: string)
    ensures ParseStyle(s).Some? ==> s == StyleString(ParseStyle(s).value)
  {
    ParseStylePrefixExact(s);
    if ParseStyle(s).Some? {
      assert StyleString(ParseStyle(s).value) + [] == StyleString(ParseStyle(s).value);
    }
  }

  /** `getImgStyle(width, height, scale)`: the unscaled size, the scaled
      size and the `+` glyph; what its CSS text carries is
      `GetImgStyleReadsBack`. */
  function GetImgStyle(width: nat, height: nat, scale: nat): (r: ImgStyle)
    ensures r.originalWidth == width && r.originalHeight == height
    ensures r.width == width * scale && r.height == height * scale && r.scale == scale
    ensures r.glyph == Glyph
  {
    var params := StyleParams(height * scale / 2, width * scale / 2, height * scale);
    ImgStyle(width, height, width * scale, height * scale, scale, Glyph, StyleString(params))
  }

  /** The CSS text reads back as vertical padding, then horizontal padding,
      then line height: each padding is the floor of half the scaled extent
      (so the padded box never exceeds the scaled size) and the line height
      is the scaled height. */
  lemma GetImgStyleReadsBack(width: nat, height: nat, scale: nat)
    ensures var p := ParseStyle(GetImgStyle(width, height, scale).style);
      && p.Some?
      && IsFloorHalf(p.value.paddingV, height * scale)
      && IsFloorHalf(p.value.paddingH, width * scale)
      && p.value.lineHeight == height * scale
    ensures ParseStyle(GetImgStyle(width, height, scale).style)
      == Some(StyleParams(height * scale / 2, width * scale / 2, height * scale))
  {
    var params := StyleParams(height * scale / 2, width * scale / 2, height * scale);
    StyleStringRoundTrip(params, []);
    assert StyleString(params) + [] == StyleString(params);
  }

  /** The floor bound pins the padding down: it is exactly `floor(x / 2)`. */
  lemma FloorHalfUnique(q: nat, x: nat)
    requires IsFloorHalf(q, x)
    ensures q == x / 2
  {
  }
}
