/** Turning the edited canvas into a file (src/utils/imageProcessing.js
    exportImage, src/utils/image-export.js): the MIME type and encoder
    quality chosen from a format name, the download filename, the quick
    PNG download named after the time, and the batch that watermarks a
    list of images one by one. Encoding is the canvas's toDataURL request;
    handing the data URL to the browser download is the returned value. */
module Export {
  import opened Js
  import opened Canvas2D
  import opened Watermark

  // ---------------------------------------------------------------------
  // Format names

  /** String.prototype.toLowerCase on one character (ASCII letters). */
  function LowerChar(c: char): (d: char)
    ensures 'A' <= c <= 'Z' ==> 'a' <= d <= 'z' && d as int - c as int == 32
    ensures !('A' <= c <= 'Z') ==> d == c
  {
    if 'A' <= c <= 'Z' then (c as int + 32) as char else c
  }

  function Lower(s: string): (t: string)
    ensures |t| == |s|
    ensures forall i :: 0 <= i < |s| ==> t[i] == LowerChar(s[i])
  {
    seq(|s|, i requires 0 <= i < |s| => LowerChar(s[i]))
  }

  /** Lower-casing twice is lower-casing once. */
  lemma LowerIdempotent(s: string)
    ensures Lower(Lower(s)) == Lower(s)
  {
    assert forall i :: 0 <= i < |s| ==> LowerChar(LowerChar(s[i])) == LowerChar(s[i]);
  }

  /** mimeTypes[key] || 'image/png' */
  function MimeFor(key: string): (mime: string)
    ensures key == "png" || key == "jpeg" || key == "webp" ==> mime == "image/" + key
    ensures key != "png" && key != "jpeg" && key != "webp" ==> mime == "image/png"
  {
    if key == "jpeg" then "image/jpeg"
    else if key == "webp" then "image/webp"
    else "image/png"
  }

  /** The lower-cased format, if one was given (format?.toLowerCase()). */
  function FormatKey(format: Option<string>): Option<string>
  {
    if format.Some? then Some(Lower(format.value)) else None
  }

  /** The MIME type a format name selects; no format selects PNG. */
  function ExportMime(format: Option<string>): (mime: string)
    ensures mime == "image/png" || mime == "image/jpeg" || mime == "image/webp"
    ensures format.None? ==> mime == "image/png"
  {
    var key := FormatKey(format);
    if key.Some? then MimeFor(key.value) else "image/png"
  }

  /** Upper or lower case makes no difference to the MIME type. */
  lemma MimeIgnoresCase(format: string)
    ensures ExportMime(Some(format)) == ExportMime(Some(Lower(format)))
    ensures Lower(format) == "jpeg" ==> ExportMime(Some(format)) == "image/jpeg"
    ensures Lower(format) == "webp" ==> ExportMime(Some(format)) == "image/webp"
  {
    LowerIdempotent(format);
  }

  // ---------------------------------------------------------------------
  // exportImage

  /** exportImage(canvas, format = 'png', quality = 0.8): PNG is encoded
      without a quality, every other format with the given one. */
  function ExportImage(canvas: Canvas, format: Option<string>, quality: Option<real>): (e: Encoded)
    reads canvas, canvas.ctx
    ensures e.source == canvas.Snapshot()
    ensures e.mimeType == ExportMime(if format.Some? then format else Some("png"))
    ensures Lower(if format.Some? then format.value else "png") == "png" <==> e.quality.None?
    ensures e.quality.Some? ==> e.quality.value == (if quality.Some? then quality.value else 0.8)
  {
    var f := if format.Some? then format.value else "png";
    var q := if quality.Some? then quality.value else 0.8;
    var mimeType := ExportMime(Some(f));
    if Lower(f) == "png" then canvas.ToDataUrl(mimeType, None)
    else canvas.ToDataUrl(mimeType, Some(q))
  }

  // ---------------------------------------------------------------------
  // exportImageWithSettings

  /** The settings object: a missing property is None. */
  datatype ExportSettings = ExportSettings(filename: Option<string>, format: Option<string>, quality: Option<real>)

  /** What a successful export hands to downloadFile; the call then returns
      {success: true, filename}. */
  datatype Download = Download(data: Encoded, filename: string)

  /** The encoder quality: 1 for PNG, otherwise the quality percentage
      divided by 100, where a missing or zero percentage counts as 80. */
  function ExportQuality(settings: ExportSettings): (q: real)
    ensures FormatKey(settings.format) == Some("png") ==> q == 1.0
    ensures FormatKey(settings.format) != Some("png") && (settings.quality.None? || settings.quality == Some(0.0)) ==> q == 0.8
    ensures FormatKey(settings.format) != Some("png") && settings.quality.Some? && settings.quality.value != 0.0 ==>
              q * 100.0 == settings.quality.value
  {
    if FormatKey(settings.format) == Some("png") then 1.0
    else
      var percent := if settings.quality.Some? && settings.quality.value != 0.0 then settings.quality.value else 80.0;
      percent / 100.0
  }

  /** `${filename || 'watermarked-image'}.${format?.toLowerCase() || 'png'}` */
  function ExportFilename(settings: ExportSettings): (name: string)
    ensures settings.filename.Some? ==> |name| > |settings.filename.value|
    ensures settings.filename.None? || settings.filename == Some("") ==> |name| >= 19
    ensures settings.format.Some? ==> |name| >= |settings.format.value| + 2
    ensures settings.format.None? || settings.format == Some("") ==> |name| >= 5
    ensures settings.filename.Some? && settings.filename.value != "" ==>
              name[..|settings.filename.value|] == settings.filename.value
    ensures settings.filename.None? || settings.filename == Some("") ==>
              name[..17] == "watermarked-image"
    ensures settings.format.Some? && settings.format.value != "" ==>
              name[|name| - |settings.format.value| - 1..] == "." + Lower(settings.format.value)
    ensures settings.format.None? || settings.format == Some("") ==>
              name[|name| - 4..] == ".png"
    ensures var stemLength := if settings.filename.Some? && settings.filename.value != "" then |settings.filename.value| else 17;
            var extensionLength := if settings.format.Some? && settings.format.value != "" then |settings.format.value| else 3;
            |name| == stemLength + 1 + extensionLength && name[stemLength] == '.'
  {
    var stem := if settings.filename.Some? && settings.filename.value != "" then settings.filename.value else "watermarked-image";
    var key := FormatKey(settings.format);
    var extension := if key.Some? && key.value != "" then key.value else "png";
    Joined(stem, extension);
    stem + "." + extension
  }

  lemma Joined(stem: string, extension: string)
    ensures var name := stem + "." + extension;
            name[..|stem|] == stem && name[|name| - |extension| - 1..] == "." + extension &&
            name[|stem|] == '.'
  {
    var name := stem + "." + extension;
    assert name[..|stem|] == stem;
    assert name[|name| - |extension| - 1..] == "." + extension;
  }

  /** exportImageWithSettings: no canvas rejects with "No canvas element
      provided"; a throwing encoder or download rejects with "Failed to
      export image"; otherwise the encoded canvas is downloaded under the
      computed name. `throws` says whether toDataURL or downloadFile
      throws. */
  method ExportImageWithSettings(canvas: Option<Canvas>, settings: ExportSettings, throws: bool) returns (r: Outcome<Download>)
    ensures canvas.None? ==> r == Failed("No canvas element provided")
    ensures canvas.Some? && throws ==> r == Failed("Failed to export image")
    ensures canvas.Some? && !throws ==>
              r == Ok(Download(canvas.value.ToDataUrl(ExportMime(settings.format), Some(ExportQuality(settings))), ExportFilename(settings)))
  {
    if canvas.None? {
      return Failed("No canvas element provided");
    }
    var mimeType := ExportMime(settings.format);
    var quality := ExportQuality(settings);
    var dataUrl := canvas.value.ToDataUrl(mimeType, Some(quality));
    var filename := ExportFilename(settings);
    if throws {
      return Failed("Failed to export image");
    }
    return Ok(Download(dataUrl, filename));
  }

  /** A format the table does not know is encoded as PNG but keeps its own
      extension: "BMP" downloads a PNG named watermarked-image.bmp. */
  lemma UnknownFormatKeepsExtension(quality: Option<real>)
    ensures var settings := ExportSettings(None, Some("BMP"), quality);
            ExportMime(settings.format) == "image/png" && ExportFilename(settings) == "watermarked-image.bmp"
  {
    assert Lower("BMP") == "bmp";
  }

  /** The default export: PNG named watermarked-image.png; with no format
      the PNG test sees nothing, so the quality passed is 0.8, not 1. */
  lemma DefaultExport()
    ensures var settings := ExportSettings(None, None, None);
            ExportMime(settings.format) == "image/png" && ExportQuality(settings) == 0.8 &&
            ExportFilename(settings) == "watermarked-image.png"
  {
  }

  // ---------------------------------------------------------------------
  // quickDownload

  /** toISOString().replace(/[:.]/g, '-'): every ':' and '.' becomes '-'. */
  function DashedTimestamp(iso: string): (t: string)
    ensures |t| == |iso|
    ensures forall i :: 0 <= i < |iso| && iso[i] != ':' && iso[i] != '.' ==> t[i] == iso[i]
    ensures forall i :: 0 <= i < |iso| && (iso[i] == ':' || iso[i] == '.') ==> t[i] == '-'
    ensures forall i :: 0 <= i < |t| ==> t[i] != ':' && t[i] != '.'
  {
    seq(|iso|, i requires 0 <= i < |iso| => if iso[i] == ':' || iso[i] == '.' then '-' else iso[i])
  }

  /** quickDownload: always PNG, named after the time of the call (now is
      what new Date().toISOString() returns). */
  method QuickDownload(canvas: Option<Canvas>, now: string, throws: bool) returns (r: Outcome<Download>)
    ensures canvas.None? ==> r == Failed("No canvas element provided")
    ensures canvas.Some? && throws ==> r == Failed("Failed to download image")
    ensures canvas.Some? && !throws ==>
              r == Ok(Download(canvas.value.ToDataUrl("image/png", None), "watermarked-image-" + DashedTimestamp(now) + ".png"))
  {
    if canvas.None? {
      return Failed("No canvas element provided");
    }
    var dataUrl := canvas.value.ToDataUrl("image/png", None);
    var timestamp := DashedTimestamp(now);
    var filename := "watermarked-image-" + timestamp + ".png";
    if throws {
      return Failed("Failed to download image");
    }
    return Ok(Download(dataUrl, filename));
  }

  /** The quick-download name has no ':' and only the one '.' that
      starts its extension. */
  lemma QuickDownloadNameHasOneDot(now: string)
    ensures var name := "watermarked-image-" + DashedTimestamp(now) + ".png";
            name[|name| - 4..] == ".png" &&
            forall i :: 0 <= i < |name| - 4 ==> name[i] != '.' && name[i] != ':'
  {
    var t := DashedTimestamp(now);
    var name := "watermarked-image-" + t + ".png";
    forall i | 0 <= i < |name| - 4
      ensures name[i] != '.' && name[i] != ':'
    {
      if i >= 18 {
        assert name[i] == t[i - 18];
      }
    }
  }

  // ---------------------------------------------------------------------
  // applyWatermarkToMultipleImages

  /** How loading one data URL into an Image ends: onload with the decoded
      image, or onerror, whose rejection reason has the given message
      property (undefined for the Event an image error passes). */
  datatype Loaded = Decoded(image: Source) | LoadError(message: Value)

  /** One entry of the result array: {success: true, data} or
      {success: false, error}. */
  datatype ItemResult = Succeeded(data: Encoded) | ItemFailed(error: Value)

  /** How the returned promise ends: with the results, or never, after the
      given results were pushed. */
  datatype Batch = Settled(results: seq<ItemResult>) | NeverSettles(pushed: seq<ItemResult>)

  /** watermarkSettings?.text is truthy. */
  predicate WantsWatermark(settings: Option<WatermarkSettings>)
  {
    settings.Some? && settings.value.text != ""
  }

  /** The PNG encoding of a fresh canvas of the image's size with the image
      drawn at the origin and, when asked for, the watermark over it. */
  function Rendered(image: Source, settings: Option<WatermarkSettings>, textWidth: real, turn: Turn): (e: Encoded)
    ensures e.mimeType == "image/png" && e.quality.None? && e.source.CanvasSource?
    ensures e.source.width == CanvasDimension(SourceWidth(image), 300)
    ensures e.source.height == CanvasDimension(SourceHeight(image), 150)
    ensures |e.source.content| == if WantsWatermark(settings) then 2 else 1
    ensures e.source.content[0] ==
              ImageDrawn(image, Rect(0.0, 0.0, SourceWidth(image) as real, SourceHeight(image) as real),
                         Rect(0.0, 0.0, SourceWidth(image) as real, SourceHeight(image) as real), DefaultState)
    ensures WantsWatermark(settings) ==>
              var origin := TextOrigin(e.source.width, e.source.height, settings.value, textWidth);
              e.source.content[1] == TextDrawn(settings.value.text, origin, TextState(DefaultState, origin, settings.value, textWidth, turn))
  {
    var width, height := CanvasDimension(SourceWidth(image), 300), CanvasDimension(SourceHeight(image), 150);
    var whole := Rect(0.0, 0.0, SourceWidth(image) as real, SourceHeight(image) as real);
    var drawn := [ImageDrawn(image, whole, whole, DefaultState)];
    var marks := if WantsWatermark(settings) then
                   var origin := TextOrigin(width, height, settings.value, textWidth);
                   [TextDrawn(settings.value.text, origin, TextState(DefaultState, origin, settings.value, textWidth, turn))]
                 else [];
    Encoded(CanvasSource(width, height, drawn + marks), "image/png", None)
  }

  /** With the default placement (50 %, 50 %, centred) the watermark on a
      rendered image is centred on it: half of the text lies on each side
      of the middle, on the middle line. */
  lemma RenderedCentersDefaultWatermark(image: Source, settings: Option<WatermarkSettings>, textWidth: real, turn: Turn)
    requires WantsWatermark(settings)
    requires settings.value.position == Point(50.0, 50.0) && settings.value.alignment == "center"
    requires SourceWidth(image) <= 0x7FFF_FFFF && SourceHeight(image) <= 0x7FFF_FFFF
    ensures var at := Rendered(image, settings, textWidth, turn).source.content[1].at;
            at.x + textWidth / 2.0 == SourceWidth(image) as real / 2.0 &&
            at.y == SourceHeight(image) as real / 2.0
  {
    var e := Rendered(image, settings, textWidth, turn);
    DefaultPlacementCentersText(e.source.width, e.source.height, settings.value, textWidth);
  }

  /** The result entry for one image. */
  function ResultFor(loaded: Loaded, settings: Option<WatermarkSettings>, textWidth: real, turn: Turn): (r: ItemResult)
    ensures r.Succeeded? <==> loaded.Decoded?
    ensures loaded.LoadError? ==> r.error == loaded.message
  {
    match loaded
    case Decoded(image) => Succeeded(Rendered(image, settings, textWidth, turn))
    case LoadError(message) => ItemFailed(message)
  }

  /** Draws one decoded image, with the watermark when asked for, on a
      fresh canvas and encodes it. */
  method RenderImage(image: Source, settings: Option<WatermarkSettings>, textWidth: real, turn: Turn) returns (data: Encoded)
    ensures data == Rendered(image, settings, textWidth, turn)
  {
    var tempCanvas := new Canvas();
    tempCanvas.SetWidth(SourceWidth(image));
    tempCanvas.SetHeight(SourceHeight(image));
    var whole := Rect(0.0, 0.0, SourceWidth(image) as real, SourceHeight(image) as real);
    tempCanvas.ctx.DrawImage(image, whole, whole);
    if WantsWatermark(settings) {
      ApplyWatermark(tempCanvas, settings.value, textWidth, turn);
    }
    data := tempCanvas.ToDataUrl("image/png", None);
  }

  /** applyWatermarkToMultipleImages as it would run with applyWatermark
      imported: one result per image, in order, a failed image not
      stopping the later ones. load says how each data URL loads. */
  method ApplyWatermarkToMultipleImages(images: seq<string>, settings: Option<WatermarkSettings>, load: string -> Loaded,
                                        textWidth: real, turn: Turn)
    returns (results: seq<ItemResult>)
    ensures |results| == |images|
    ensures forall i :: 0 <= i < |images| ==> results[i] == ResultFor(load(images[i]), settings, textWidth, turn)
  {
    results := [];
    var k := 0;
    while k < |images|
      invariant 0 <= k <= |images|
      invariant |results| == k
      invariant forall i :: 0 <= i < k ==> results[i] == ResultFor(load(images[i]), settings, textWidth, turn)
    {
      var loaded := load(images[k]);
      if loaded.Decoded? {
        var data := RenderImage(loaded.image, settings, textWidth, turn);
        results := results + [Succeeded(data)];
      } else {
        results := results + [ItemFailed(loaded.message)];
      }
      k := k + 1;
    }
  }

  /** applyWatermarkToMultipleImages as written: applyWatermark is not
      imported, so with watermark text the onload handler of the first
      image that loads throws a ReferenceError, resolve is never called
      and the returned promise never settles. */
  method ApplyWatermarkToMultipleImagesAsWritten(images: seq<string>, settings: Option<WatermarkSettings>, load: string -> Loaded)
    returns (batch: Batch)
    ensures batch.NeverSettles? <==> WantsWatermark(settings) && exists i :: 0 <= i < |images| && load(images[i]).Decoded?
    ensures batch.Settled? ==>
              |batch.results| == |images| &&
              forall i :: 0 <= i < |images| ==> batch.results[i] == ResultFor(load(images[i]), settings, 0.0, Turn(1.0, 0.0))
    ensures batch.NeverSettles? ==>
              var k := |batch.pushed|;
              k < |images| && load(images[k]).Decoded? &&
              forall i :: 0 <= i < k ==> load(images[i]).LoadError? && batch.pushed[i] == ItemFailed(load(images[i]).message)
  {
    var results := [];
    var k := 0;
    while k < |images|
      invariant 0 <= k <= |images|
      invariant |results| == k
      invariant forall i :: 0 <= i < k ==> results[i] == ResultFor(load(images[i]), settings, 0.0, Turn(1.0, 0.0))
      invariant WantsWatermark(settings) ==> forall i :: 0 <= i < k ==> load(images[i]).LoadError?
    {
      var loaded := load(images[k]);
      if loaded.Decoded? {
        if WantsWatermark(settings) {
          return NeverSettles(results);
        }
        var data := RenderImage(loaded.image, settings, 0.0, Turn(1.0, 0.0));
        results := results + [Succeeded(data)];
      } else {
        results := results + [ItemFailed(loaded.message)];
      }
      k := k + 1;
    }
    return Settled(results);
  }

  /** One image that loads and a watermark text: the condition under
      which the batch as written never settles holds, where the intended
      batch returns one result carrying the image and the watermark. */
  lemma BatchHangsWithWatermark(url: string, image: Source, settings: WatermarkSettings, textWidth: real, turn: Turn)
    requires settings.text != ""
    ensures var load := (u: string) => Decoded(image);
            WantsWatermark(Some(settings)) && (exists i :: 0 <= i < |[url]| && load([url][i]).Decoded?)
    ensures var r := ResultFor(Decoded(image), Some(settings), textWidth, turn);
            r.Succeeded? && |r.data.source.content| == 2 && r.data.source.content[1].TextDrawn?
  {
    var load := (u: string) => Decoded(image);
    assert load([url][0]).Decoded?;
  }

  /** Without watermark text both versions give the same results. */
  lemma NoTextSameResults(loaded: Loaded, textWidth: real, turn: Turn)
    ensures ResultFor(loaded, None, textWidth, turn) == ResultFor(loaded, None, 0.0, Turn(1.0, 0.0))
  {
  }
}
