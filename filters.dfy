/** The preset filters of applyFilter (src/utils/imageProcessing.js):
    grayscale, sepia and invert, each one stride-4 pass over the sample
    array; any other filter name leaves the canvas untouched. Every value
    a pass computes is stored into the Uint8ClampedArray of the ImageData,
    so it is clamped and rounded half to even. */
module Filters {
  import opened Numeric
  import opened Pixels
  import Js

  /** Channel mean, stored as the clamped array stores it. */
  function GrayRgb(c: Rgb): Rgb
  {
    var gray := ToUint8Clamp((c.r + c.g + c.b) as real / 3.0);
    Rgb(gray, gray, gray)
  }

  /** The sepia weights, each sum capped at 255 before the store. */
  function SepiaRgb(c: Rgb): Rgb
  {
    var r, g, b := c.r as real, c.g as real, c.b as real;
    Rgb(ToUint8Clamp(Min(255.0, r * 0.393 + g * 0.769 + b * 0.189)),
        ToUint8Clamp(Min(255.0, r * 0.349 + g * 0.686 + b * 0.168)),
        ToUint8Clamp(Min(255.0, r * 0.272 + g * 0.534 + b * 0.131)))
  }

  function InvertRgb(c: Rgb): Rgb
  {
    Rgb(255 - c.r, 255 - c.g, 255 - c.b)
  }

  /** The sample array after applyFilter(canvas, filterType); the names are
      compared exactly, as a switch statement compares them. */
  function Filtered(s: seq<Byte>, filterType: string): (t: seq<Byte>)
    requires WholePixels(s)
    ensures |t| == |s|
  {
    if filterType == "grayscale" then MapRgb(s, GrayRgb)
    else if filterType == "sepia" then MapRgb(s, SepiaRgb)
    else if filterType == "invert" then MapRgb(s, InvertRgb)
    else s
  }

  /** applyFilter on a width by height canvas whose sample array is data:
      getImageData throws an IndexSizeError when a side is 0, whatever the
      filter name; otherwise the pass runs in place. */
  method ApplyFilter(width: nat, height: nat, data: array<Byte>, filterType: string) returns (r: Js.Outcome<()>)
    requires data.Length == 4 * (width * height)
    modifies data
    ensures r.Failed? <==> width == 0 || height == 0
    ensures r.Failed? ==> r.message == "IndexSizeError" && data[..] == old(data[..])
    ensures r.Ok? ==> data[..] == Filtered(old(data[..]), filterType)
  {
    if width == 0 || height == 0 {
      return Js.Failed("IndexSizeError");
    }
    r := Js.Ok(());
    if filterType == "grayscale" {
      ForEachPixel(data, GrayRgb);
    } else if filterType == "sepia" {
      ForEachPixel(data, SepiaRgb);
    } else if filterType == "invert" {
      ForEachPixel(data, InvertRgb);
    } else {
      // An unknown filter returns before putImageData.
      return;
    }
  }

  // ---------------------------------------------------------------------
  // What the filters do

  /** A third of a whole number is never exactly halfway between two whole
      numbers, so the gray value is the mean rounded to nearest, which in
      whole-number arithmetic is (r + g + b + 1) div 3. */
  lemma GrayIsRoundedMean(c: Rgb)
    ensures GrayRgb(c).r == (c.r + c.g + c.b + 1) / 3
  {
    var n := c.r + c.g + c.b;
    var q := n / 3;
    var x := n as real / 3.0;
    assert x == q as real + (n % 3) as real / 3.0;
    if n % 3 == 0 {
      assert x == q as real;
    } else if n % 3 == 1 {
      assert q as real < x < q as real + 0.5;
    } else {
      assert q as real + 0.5 < x < q as real + 1.0;
    }
  }

  /** After grayscale the three channels of every pixel agree. */
  lemma GrayscaleIsGray(s: seq<Byte>, p: nat)
    requires WholePixels(s) && p % 4 == 0 && p + 3 < |s|
    ensures var t := Filtered(s, "grayscale"); t[p] == t[p + 1] == t[p + 2]
  {
    var t := Filtered(s, "grayscale");
    assert RgbAt(t, p) == GrayRgb(RgbAt(s, p));
  }

  /** A gray pixel stays what it is under grayscale. */
  lemma GrayOfGray(c: Rgb)
    requires c.r == c.g == c.b
    ensures GrayRgb(c) == c
  {
    assert (c.r + c.g + c.b) as real / 3.0 == c.r as real;
    ClampKeepsByte(c.r);
  }

  /** Applying grayscale twice is applying it once. */
  lemma GrayscaleIdempotent(s: seq<Byte>)
    requires WholePixels(s)
    ensures Filtered(Filtered(s, "grayscale"), "grayscale") == Filtered(s, "grayscale")
  {
    forall c: Rgb
      ensures GrayRgb(GrayRgb(c)) == GrayRgb(c)
    {
      GrayOfGray(GrayRgb(c));
    }
    MapCompose(s, GrayRgb, GrayRgb, GrayRgb);
  }

  /** Inverting twice gives back the original samples. */
  lemma InvertInvolution(s: seq<Byte>)
    requires WholePixels(s)
    ensures Filtered(Filtered(s, "invert"), "invert") == s
  {
    MapCompose(s, InvertRgb, InvertRgb, c => c);
    MapIdentity(s, c => c);
  }

  /** Inversion swaps black and white. */
  lemma InvertSwapsBlackAndWhite()
    ensures InvertRgb(Rgb(0, 0, 0)) == Rgb(255, 255, 255)
    ensures InvertRgb(Rgb(255, 255, 255)) == Rgb(0, 0, 0)
  {
  }

  /** Sepia keeps black and turns white into the warm tone (255, 255, 239):
      the blue weights sum to 0.937, so 255 maps to 238.935. */
  lemma SepiaOfBlackAndWhite()
    ensures SepiaRgb(Rgb(0, 0, 0)) == Rgb(0, 0, 0)
    ensures SepiaRgb(Rgb(255, 255, 255)) == Rgb(255, 255, 239)
  {
    var x := 255.0 * 0.272 + 255.0 * 0.534 + 255.0 * 0.131;
    assert x == 238.935;
    assert ToUint8Clamp(Min(255.0, x)) == 239;
  }

  /** Sepia never makes the blue channel larger than the green one or the
      green one larger than the red one: each weight row is dominated by
      the one above it. */
  lemma SepiaIsWarm(c: Rgb)
    ensures var t := SepiaRgb(c); t.b <= t.g <= t.r
  {
    var r, g, b := c.r as real, c.g as real, c.b as real;
    var R := r * 0.393 + g * 0.769 + b * 0.189;
    var G := r * 0.349 + g * 0.686 + b * 0.168;
    var B := r * 0.272 + g * 0.534 + b * 0.131;
    assert B <= G <= R;
    ClampMonotone(Min(255.0, B), Min(255.0, G));
    ClampMonotone(Min(255.0, G), Min(255.0, R));
  }

  /** Any other name changes nothing. */
  lemma UnknownFilterKeepsImage(s: seq<Byte>, filterType: string)
    requires WholePixels(s)
    requires filterType != "grayscale" && filterType != "sepia" && filterType != "invert"
    ensures Filtered(s, filterType) == s
  {
  }
}
