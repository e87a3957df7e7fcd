/** The interleaved RGBA sample buffer of an ImageData (4 samples per pixel,
    in the order R, G, B, A) and the one shape every per-pixel pass of
    the engine has: rewrite R, G and B of each pixel from that pixel's own
    colour and leave A alone. */
module Pixels {
  import opened Numeric

  /** The colour part of one pixel. */
  datatype Rgb = Rgb(r: Byte, g: Byte, b: Byte)

  /** A buffer the way ImageData.data always is: whole pixels only. */
  predicate WholePixels(s: seq<Byte>)
  {
    |s| % 4 == 0
  }

  /** The first sample of the pixel that holds sample k. */
  function PixelStart(k: nat): (p: nat)
    ensures p <= k < p + 4 && p % 4 == 0 && k - p == k % 4
  {
    k - k % 4
  }

  lemma PixelInside(n: nat, k: nat)
    requires n % 4 == 0 && k < n
    ensures PixelStart(k) + 3 < n
  {
    var p := PixelStart(k);
    assert (n - p) % 4 == 0;
  }

  /** The four samples of the pixel that starts at p. */
  lemma SamplesOfPixel(s: seq<Byte>, f: Rgb -> Rgb, p: nat)
    requires WholePixels(s) && p < |s| && p % 4 == 0
    ensures p + 3 < |s|
    ensures MappedSample(s, f, p) == f(RgbAt(s, p)).r
    ensures MappedSample(s, f, p + 1) == f(RgbAt(s, p)).g
    ensures MappedSample(s, f, p + 2) == f(RgbAt(s, p)).b
    ensures MappedSample(s, f, p + 3) == s[p + 3]
  {
    PixelInside(|s|, p);
    assert PixelStart(p + 1) == p && PixelStart(p + 2) == p && PixelStart(p + 3) == p;
  }

  function RgbAt(s: seq<Byte>, p: nat): Rgb
    requires p + 2 < |s|
  {
    Rgb(s[p], s[p + 1], s[p + 2])
  }

  /** Channel 0, 1 or 2 of a colour. */
  function Channel(c: Rgb, j: nat): Byte
    requires j < 3
  {
    if j == 0 then c.r else if j == 1 then c.g else c.b
  }

  /** Sample k of the buffer after the colour of every pixel went through f. */
  function MappedSample(s: seq<Byte>, f: Rgb -> Rgb, k: nat): Byte
    requires WholePixels(s) && k < |s|
  {
    PixelInside(|s|, k);
    var p := PixelStart(k);
    if k % 4 == 3 then s[k] else Channel(f(RgbAt(s, p)), k % 4)
  }

  /** The buffer after the colour of every pixel went through f. */
  function MapRgb(s: seq<Byte>, f: Rgb -> Rgb): (t: seq<Byte>)
    requires WholePixels(s)
    ensures |t| == |s| && WholePixels(t)
    ensures forall k :: 0 <= k < |s| && k % 4 == 3 ==> t[k] == s[k]
    ensures forall p :: 0 <= p < |s| && p % 4 == 0 ==> RgbAt(t, p) == f(RgbAt(s, p))
  {
    var t := seq(|s|, k requires 0 <= k < |s| => MappedSample(s, f, k));
    forall p | 0 <= p < |s| && p % 4 == 0
      ensures RgbAt(t, p) == f(RgbAt(s, p))
    {
      PixelInside(|s|, p);
      assert PixelStart(p + 1) == p && PixelStart(p + 2) == p;
    }
    t
  }

  /** Two buffers of whole pixels are equal when their alpha samples and
      every pixel's colour agree. */
  lemma {:induction false} EqualByPixels(s: seq<Byte>, t: seq<Byte>)
    requires WholePixels(s) && |t| == |s|
    requires forall k :: 0 <= k < |s| && k % 4 == 3 ==> t[k] == s[k]
    requires forall p :: 0 <= p < |s| && p % 4 == 0 ==> RgbAt(t, p) == RgbAt(s, p)
    ensures t == s
  {
    forall k | 0 <= k < |s|
      ensures t[k] == s[k]
    {
      var p := PixelStart(k);
      PixelInside(|s|, k);
      assert RgbAt(t, p) == RgbAt(s, p);
    }
  }

  /** Mapping every colour through the identity leaves the buffer as it is. */
  lemma MapIdentity(s: seq<Byte>, f: Rgb -> Rgb)
    requires WholePixels(s)
    requires forall c :: f(c) == c
    ensures MapRgb(s, f) == s
  {
    EqualByPixels(s, MapRgb(s, f));
  }

  /** Two passes are one pass of the composed colour map. */
  lemma MapCompose(s: seq<Byte>, f: Rgb -> Rgb, g: Rgb -> Rgb, h: Rgb -> Rgb)
    requires WholePixels(s)
    requires forall c :: h(c) == g(f(c))
    ensures MapRgb(MapRgb(s, f), g) == MapRgb(s, h)
  {
    var t := MapRgb(MapRgb(s, f), g);
    var u := MapRgb(s, h);
    forall k | 0 <= k < |s|
      ensures t[k] == u[k]
    {
      var p := PixelStart(k);
      PixelInside(|s|, k);
      assert RgbAt(t, p) == g(f(RgbAt(s, p))) == RgbAt(u, p);
    }
  }

  /** Functions that agree on every colour map a buffer the same way. */
  lemma MapAgree(s: seq<Byte>, f: Rgb -> Rgb, g: Rgb -> Rgb)
    requires WholePixels(s)
    requires forall c :: f(c) == g(c)
    ensures MapRgb(s, f) == MapRgb(s, g)
  {
    MapCompose(s, f, c => c, g);
    MapIdentity(MapRgb(s, f), c => c);
  }

  /** The stride-4 loop every per-pixel pass runs over ImageData.data:
      R, G and B of each pixel are replaced by f of that pixel's colour,
      A is never written. */
  method ForEachPixel(data: array<Byte>, f: Rgb -> Rgb)
    requires data.Length % 4 == 0
    modifies data
    ensures data[..] == MapRgb(old(data[..]), f)
  {
    ghost var s := data[..];
    var i := 0;
    while i < data.Length
      invariant 0 <= i <= data.Length && i % 4 == 0
      invariant forall k :: 0 <= k < i ==> data[k] == MappedSample(s, f, k)
      invariant forall k :: i <= k < data.Length ==> data[k] == s[k]
    {
      SamplesOfPixel(s, f, i);
      var c := f(Rgb(data[i], data[i + 1], data[i + 2]));
      data[i], data[i + 1], data[i + 2] := c.r, c.g, c.b;
      i := i + 4;
    }
    assert data[..] == MapRgb(s, f);
  }
}
