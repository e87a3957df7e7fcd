/** Brightness, contrast and saturation (applyImageAdjustments in
    src/utils/imageProcessing.js). Brightness and contrast go through two
    256-entry Uint8Array lookup tables, brightness first; saturation blends
    each channel towards one luma value per pixel. The coefficients are
    exact reals here. */
module Adjustments {
  import opened Numeric
  import opened Pixels
  import Js

  /** The three slider values, 100 meaning "leave as it is". */
  datatype AdjustmentSettings = AdjustmentSettings(brightness: real, contrast: real, saturation: real)

  const Neutral := AdjustmentSettings(100.0, 100.0, 100.0)

  /** A table store: the value clamped into [0, 255], then truncated by the
      Uint8Array it is written into. The clamp means the store never wraps:
      the entry is the floor of the clamped value. */
  function TableStore(x: real): (e: Byte)
    ensures var v := Min(255.0, Max(0.0, x)); e as real <= v < e as real + 1.0
  {
    ToUint8(Min(255.0, Max(0.0, x)))
  }

  /** x scaled by factor k (kept as a function of its own so that the
      solver sees the product only where a proof needs it). */
  function Scaled(x: real, k: real): real
  {
    x * k
  }

  /** Entry i of the brightness table: i scaled by brightness / 100. */
  function BrightnessEntry(i: int, brightness: real): Byte
  {
    TableStore(Scaled(i as real, brightness / 100.0))
  }

  /** Entry i of the contrast table: the distance from 128 scaled by
      contrast / 100. */
  function ContrastEntry(i: int, contrast: real): Byte
  {
    TableStore(Scaled((i - 128) as real, contrast / 100.0) + 128.0)
  }

  /** One channel through both tables, brightness before contrast. */
  function Tone(v: Byte, st: AdjustmentSettings): Byte
  {
    ContrastEntry(BrightnessEntry(v, st.brightness), st.contrast)
  }

  /** The luma weights the source uses (close to ITU-R BT.601). */
  function Luma(c: Rgb): real
  {
    0.2989 * c.r as real + 0.5870 * c.g as real + 0.1140 * c.b as real
  }

  /** One channel pulled towards (or pushed away from) gray by factor s,
      clamped, then stored into the clamped sample array. */
  function Blend(ch: Byte, gray: real, s: real): Byte
  {
    ToUint8Clamp(Min(255.0, Max(0.0, gray + Scaled(ch as real - gray, s))))
  }

  function SaturateRgb(c: Rgb, s: real): Rgb
  {
    var gray := Luma(c);
    Rgb(Blend(c.r, gray, s), Blend(c.g, gray, s), Blend(c.b, gray, s))
  }

  /** The colour of one pixel after the whole adjustment pass: both tables,
      then, only when the saturation factor is not 1, the blend computed
      from the already toned channels. */
  function AdjustRgb(c: Rgb, st: AdjustmentSettings): Rgb
  {
    var t := Rgb(Tone(c.r, st), Tone(c.g, st), Tone(c.b, st));
    if st.saturation / 100.0 != 1.0 then SaturateRgb(t, st.saturation / 100.0) else t
  }

  /** The buffer after the pass: every pixel's colour through AdjustRgb,
      alpha untouched. */
  function Adjusted(s: seq<Byte>, st: AdjustmentSettings): (t: seq<Byte>)
    requires WholePixels(s)
    ensures |t| == |s|
  {
    MapRgb(s, c => AdjustRgb(c, st))
  }

  /** The brightness table of applyImageAdjustments, one entry per sample value. */
  function BrightnessTable(st: AdjustmentSettings): (t: seq<Byte>)
    ensures |t| == 256
  {
    seq(256, i => BrightnessEntry(i, st.brightness))
  }

  /** The contrast table, one entry per sample value. */
  function ContrastTable(st: AdjustmentSettings): (t: seq<Byte>)
    ensures |t| == 256
  {
    seq(256, i => ContrastEntry(i, st.contrast))
  }

  /** The colour computation of the pixel loop, reading the filled tables. */
  function PixelWithTables(c: Rgb, bright: seq<Byte>, contrast: seq<Byte>, saturation: real): Rgb
    requires |bright| == 256 && |contrast| == 256
  {
    var t := Rgb(contrast[bright[c.r]], contrast[bright[c.g]], contrast[bright[c.b]]);
    if saturation != 1.0 then SaturateRgb(t, saturation) else t
  }

  function WithTables(bright: seq<Byte>, contrast: seq<Byte>, saturation: real): Rgb -> Rgb
    requires |bright| == 256 && |contrast| == 256
  {
    c => PixelWithTables(c, bright, contrast, saturation)
  }

  /** Reading the two tables is the same as computing Tone directly, so the
      pass the loop performs is Adjusted. */
  lemma TablesComputeAdjusted(s: seq<Byte>, st: AdjustmentSettings)
    requires WholePixels(s)
    ensures MapRgb(s, WithTables(BrightnessTable(st), ContrastTable(st), st.saturation / 100.0)) == Adjusted(s, st)
  {
    var f := WithTables(BrightnessTable(st), ContrastTable(st), st.saturation / 100.0);
    forall c: Rgb
      ensures f(c) == AdjustRgb(c, st)
    {
      var B := BrightnessTable(st);
      var C := ContrastTable(st);
      assert C[B[c.r]] == Tone(c.r, st);
      assert C[B[c.g]] == Tone(c.g, st);
      assert C[B[c.b]] == Tone(c.b, st);
    }
    MapAgree(s, f, c => AdjustRgb(c, st));
  }

  /** The first half of applyImageAdjustments: both Uint8Array lookup
      tables, one entry per possible sample value. */
  method FillLookupTables(st: AdjustmentSettings) returns (brightnessLookup: array<Byte>, contrastLookup: array<Byte>)
    ensures fresh(brightnessLookup) && fresh(contrastLookup)
    ensures brightnessLookup[..] == BrightnessTable(st)
    ensures contrastLookup[..] == ContrastTable(st)
  {
    brightnessLookup := new Byte[256];
    contrastLookup := new Byte[256];
    for i := 0 to 256
      invariant forall j :: 0 <= j < i ==> brightnessLookup[j] == BrightnessEntry(j, st.brightness)
      invariant forall j :: 0 <= j < i ==> contrastLookup[j] == ContrastEntry(j, st.contrast)
    {
      brightnessLookup[i] := BrightnessEntry(i, st.brightness);
      contrastLookup[i] := ContrastEntry(i, st.contrast);
    }
  }

  /** applyImageAdjustments on a width by height canvas whose sample array
      is data: getImageData throws an IndexSizeError when a side is 0;
      otherwise both lookup tables are filled and R, G, B of every pixel
      are rewritten in place. */
  method ApplyImageAdjustments(width: nat, height: nat, data: array<Byte>, st: AdjustmentSettings) returns (r: Js.Outcome<()>)
    requires data.Length == 4 * (width * height)
    modifies data
    ensures r.Failed? <==> width == 0 || height == 0
    ensures r.Failed? ==> r.message == "IndexSizeError" && data[..] == old(data[..])
    ensures r.Ok? ==> data[..] == Adjusted(old(data[..]), st)
  {
    if width == 0 || height == 0 {
      return Js.Failed("IndexSizeError");
    }
    var saturation := st.saturation / 100.0;
    var brightnessLookup, contrastLookup := FillLookupTables(st);
    var bright, contrast := brightnessLookup[..], contrastLookup[..];
    ForEachPixel(data, WithTables(bright, contrast, saturation));
    TablesComputeAdjusted(old(data[..]), st);
    r := Js.Ok(());
  }

  // ---------------------------------------------------------------------
  // What the pass does

  /** At brightness = contrast = 100 both tables are the identity. */
  lemma NeutralTone(v: Byte)
    ensures Tone(v, Neutral) == v
  {
    assert BrightnessEntry(v, 100.0) == v;
  }

  /** With all three sliders at 100 the pass changes no sample. */
  lemma NeutralIsIdentity(s: seq<Byte>)
    requires WholePixels(s)
    ensures Adjusted(s, Neutral) == s
  {
    forall c: Rgb ensures AdjustRgb(c, Neutral) == c {
      NeutralTone(c.r);
      NeutralTone(c.g);
      NeutralTone(c.b);
    }
    MapIdentity(s, c => AdjustRgb(c, Neutral));
  }

  /** Skipping the blend at factor 1 loses nothing: blending at 1 would
      reproduce every channel. */
  lemma BlendAtOneIsIdentity(c: Rgb)
    ensures SaturateRgb(c, 1.0) == c
  {
    var gray := Luma(c);
    ClampKeepsByte(c.r);
    ClampKeepsByte(c.g);
    ClampKeepsByte(c.b);
  }

  /** Brightness 150 alone: every channel becomes min(255, floor(1.5 v)),
      written with whole numbers as min(255, (3 v) div 2). */
  lemma BrightnessOnly150(v: Byte)
    ensures Tone(v, AdjustmentSettings(150.0, 100.0, 100.0)) == if 3 * v / 2 < 255 then 3 * v / 2 else 255
  {
    var e := BrightnessEntry(v, 150.0);
    assert v as real * (150.0 / 100.0) == (3 * v) as real / 2.0;
    assert (3 * v / 2) as real <= (3 * v) as real / 2.0 < (3 * v / 2) as real + 1.0;
    assert e == if 3 * v / 2 < 255 then 3 * v / 2 else 255;
    assert ContrastEntry(e, 100.0) == e;
  }

  /** Blending at factor 0 sends every channel to the same value. */
  lemma BlendAtZeroIsGray(c: Rgb)
    ensures var t := SaturateRgb(c, 0.0); t.r == t.g == t.b
  {
    var gray := Luma(c);
    assert Scaled(c.r as real - gray, 0.0) == 0.0;
    assert Scaled(c.g as real - gray, 0.0) == 0.0;
    assert Scaled(c.b as real - gray, 0.0) == 0.0;
  }

  /** Saturation 0 turns every pixel gray: the three channels agree. */
  lemma ZeroSaturationIsGray(s: seq<Byte>, st: AdjustmentSettings, p: nat)
    requires WholePixels(s) && p % 4 == 0 && p + 3 < |s|
    requires st.saturation == 0.0
    ensures var t := Adjusted(s, st); t[p] == t[p + 1] == t[p + 2]
  {
    var c := RgbAt(s, p);
    var tc := Rgb(Tone(c.r, st), Tone(c.g, st), Tone(c.b, st));
    assert st.saturation / 100.0 == 0.0;
    assert AdjustRgb(c, st) == SaturateRgb(tc, 0.0);
    BlendAtZeroIsGray(tc);
    var t := Adjusted(s, st);
    assert RgbAt(t, p) == AdjustRgb(c, st);
  }

  lemma ScaleMonotone(x: real, y: real, k: real)
    requires x <= y && k >= 0.0
    ensures Scaled(x, k) <= Scaled(y, k)
  {
    assert (y - x) * k >= 0.0;
  }

  lemma TableStoreMonotone(x: real, y: real)
    requires x <= y
    ensures TableStore(x) <= TableStore(y)
  {
  }

  lemma BrightnessMonotone(v: int, w: int, brightness: real)
    requires v <= w && brightness >= 0.0
    ensures BrightnessEntry(v, brightness) <= BrightnessEntry(w, brightness)
  {
    var k := brightness / 100.0;
    ScaleMonotone(v as real, w as real, k);
    TableStoreMonotone(Scaled(v as real, k), Scaled(w as real, k));
  }

  lemma ContrastMonotone(v: int, w: int, contrast: real)
    requires v <= w && contrast >= 0.0
    ensures ContrastEntry(v, contrast) <= ContrastEntry(w, contrast)
  {
    var k := contrast / 100.0;
    ScaleMonotone((v - 128) as real, (w - 128) as real, k);
    TableStoreMonotone(Scaled((v - 128) as real, k) + 128.0, Scaled((w - 128) as real, k) + 128.0);
  }

  /** With non-negative sliders the tables keep the order of intensities:
      a darker input channel never comes out brighter. */
  lemma ToneMonotone(v: Byte, w: Byte, st: AdjustmentSettings)
    requires v <= w && st.brightness >= 0.0 && st.contrast >= 0.0
    ensures Tone(v, st) <= Tone(w, st)
  {
    BrightnessMonotone(v, w, st.brightness);
    ContrastMonotone(BrightnessEntry(v, st.brightness), BrightnessEntry(w, st.brightness), st.contrast);
  }
}
