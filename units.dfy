/** The unit handling of tool_paths.py: SVG `width` and `height`
    attributes are read as pixels, points being worth 1.333 pixels. */
module Units {
  import opened Python

  /** Pixels per point, as the source writes it (not 4/3). */
  const PxPerPt: real := 1.333

  predicate EndsWith(s: string, suffix: string) {
    |suffix| <= |s| && s[|s| - |suffix|..] == suffix
  }

  /** `value_str[:-2]`: the attribute without its two-letter unit. */
  function DropUnit(s: string): string
    requires |s| >= 2
  {
    s[..|s| - 2]
  }

  /** `convert_to_pixels`: "px" is dropped, "pt" is dropped and scaled, any
      other text is read as a bare number. */
  function ConvertToPixels(value: string): Result<real>
  {
    if EndsWith(value, "px") then Float(DropUnit(value))
    else if EndsWith(value, "pt") then
      match Float(DropUnit(value))
      case Err(e) => Err(e)
      case Ok(v) => Ok(v * PxPerPt)
    else Float(value)
  }

  /** `convert_pt_to_px`: `float(pt_value) * 1.333`. */
  function ConvertPtToPx(ptValue: string): Result<real>
  {
    match Float(ptValue)
    case Err(e) => Err(e)
    case Ok(v) => Ok(v * PxPerPt)
  }

  /** `convert_px_to_pt`: `px_value / 1.333`. */
  function ConvertPxToPt(pxValue: real): real
  {
    pxValue / PxPerPt
  }

  /** The unit branch of `get_svg_canvas_size_in_px` for one attribute:
      only "pt" is recognised, anything else goes to `float()` whole. */
  function CanvasDimensionPx(attr: string): Result<real>
  {
    if EndsWith(attr, "pt") then ConvertPtToPx(DropUnit(attr)) else Float(attr)
  }

  // ---------------------------------------------------------------------
  // What the conversions promise

  /** "Npx" is N pixels. */
  lemma PixelsOfPx(value: string)
    requires EndsWith(value, "px")
    ensures ConvertToPixels(value) == Float(DropUnit(value))
  {
  }

  /** "Npt" is N times 1.333 pixels, the same as `convert_pt_to_px`. */
  lemma PixelsOfPt(value: string)
    requires EndsWith(value, "pt")
    ensures ConvertToPixels(value) == ConvertPtToPx(DropUnit(value))
  {
    assert value[|value| - 1] == 't';
  }

  /** Text with neither unit is read as it stands. */
  lemma PixelsOfBare(value: string)
    requires !EndsWith(value, "px") && !EndsWith(value, "pt")
    ensures ConvertToPixels(value) == Float(value)
  {
  }

  /** A number written in digits: with "px" or no unit it is that many
      pixels, with "pt" 1.333 times as many. */
  lemma UnitTable(value: string, ds: string)
    requires ds != [] && AllDigits(ds)
    requires value == ds || ((EndsWith(value, "px") || EndsWith(value, "pt")) && DropUnit(value) == ds)
    ensures EndsWith(value, "pt") ==> ConvertToPixels(value) == Ok(DigitsValue(ds) as real * PxPerPt)
    ensures !EndsWith(value, "pt") ==> ConvertToPixels(value) == Ok(DigitsValue(ds) as real)
  {
    ParseFloatDigits(ds);
    if value == ds {
      assert !IsDigit('x') && !IsDigit('t');
      assert !EndsWith(value, "px") && !EndsWith(value, "pt") by {
        assert IsDigit(value[|value| - 1]);
      }
    } else if EndsWith(value, "pt") {
      PixelsOfPt(value);
    }
  }

  /** Converting points to pixels and back gives the original number. */
  lemma PtPxRoundTrip(s: string)
    ensures ConvertPtToPx(s).Ok? <==> Float(s).Ok?
    ensures ConvertPtToPx(s).Ok? ==> ConvertPxToPt(ConvertPtToPx(s).value) == Float(s).value
  {
  }

  /** The canvas reader agrees with `convert_to_pixels` except on "px". */
  lemma CanvasAgrees(attr: string)
    requires !EndsWith(attr, "px")
    ensures CanvasDimensionPx(attr) == ConvertToPixels(attr)
  {
    if EndsWith(attr, "pt") {
      PixelsOfPt(attr);
    } else {
      PixelsOfBare(attr);
    }
  }

  /** A "px" attribute makes the canvas reader raise ValueError, although
      `convert_to_pixels` reads it: `float()` is handed the unit too. */
  lemma CanvasRejectsPx(attr: string)
    requires EndsWith(attr, "px")
    ensures CanvasDimensionPx(attr) == Err(ValueError)
  {
    assert attr[|attr| - 1] == 'x';
    if ParseFloat(attr).Some? {
      ParseFloatLastChar(attr);
    }
  }
}
