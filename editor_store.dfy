/** The editor store (src/store/editorStore.js): the image being edited,
    the images of the project, the adjustment settings and the watermark
    settings. Every action replaces some of these fields. Images are
    data-URL strings. */
module EditorStore {
  import opened Js
  import opened Records

  /** The settings the store starts with. */
  const InitialSettings: Record := map[
    "brightness" := Num(100.0), "contrast" := Num(100.0), "saturation" := Num(100.0),
    "rotation" := Num(0.0), "scale" := Num(100.0), "isCropping" := Bool(false),
    "cropBox" := Obj(map["x" := Num(0.0), "y" := Num(0.0), "width" := Num(0.0), "height" := Num(0.0)])]

  /** The settings resetSettings and clearImage install: the five numeric
      sliders only, without isCropping and cropBox. */
  const ResetSettingsRecord: Record := map[
    "brightness" := Num(100.0), "contrast" := Num(100.0), "saturation" := Num(100.0),
    "rotation" := Num(0.0), "scale" := Num(100.0)]

  /** The watermark settings the store starts with, and which
      resetWatermark restores. */
  const DefaultWatermark: Record := map[
    "text" := Str(""), "font" := Str("Arial"), "size" := Num(24.0), "color" := Str("#ffffff"),
    "opacity" := Num(0.8), "position" := Obj(map["x" := Num(50.0), "y" := Num(50.0)]),
    "rotation" := Num(0.0), "alignment" := Str("center"), "enableShadow" := Bool(true),
    "shadowOpacity" := Num(0.5)]

  /** What removeImage leaves in currentImage: it is either kept or
      cleared to null, and a current image (anything but undefined) is
      cleared exactly when it is null already or it is the image at the
      removed position. Strict equality also matches an undefined current
      image against an index outside the array. */
  function CurrentAfterRemove(current: Value, images: seq<Value>, index: int): (v: Value)
    ensures v == Null || v == current
    ensures current != Undefined ==>
              (v == Null <==> current == Null || (0 <= index < |images| && images[index] == current))
    ensures current == Undefined ==> (v == Null <==> !(0 <= index < |images|) || images[index] == Undefined)
  {
    if current == At(images, index) then Null else current
  }

  class EditorStore {
    var currentImage: Value
    var projectImages: seq<Value>
    var settings: Record
    var watermark: Record

    constructor()
      ensures currentImage == Null && projectImages == []
      ensures settings == InitialSettings && watermark == DefaultWatermark
    {
      currentImage := Null;
      projectImages := [];
      settings := InitialSettings;
      watermark := DefaultWatermark;
    }

    method SetCurrentImage(image: Value)
      modifies this
      ensures currentImage == image
      ensures projectImages == old(projectImages) && settings == old(settings) && watermark == old(watermark)
    {
      currentImage := image;
    }

    /** Appends the new images after the existing ones. */
    method AddImages(newImages: seq<Value>)
      modifies this
      ensures projectImages == old(projectImages) + newImages
      ensures projectImages[..|old(projectImages)|] == old(projectImages)
      ensures projectImages[|old(projectImages)|..] == newImages
      ensures currentImage == old(currentImage) && settings == old(settings) && watermark == old(watermark)
    {
      projectImages := projectImages + newImages;
    }

    /** Drops the image at index and forgets it as the current image if it
        is that image. An index outside the array removes nothing. */
    method RemoveImage(index: int)
      modifies this
      ensures projectImages == WithoutIndex(old(projectImages), index)
      ensures currentImage == CurrentAfterRemove(old(currentImage), old(projectImages), index)
      ensures settings == old(settings) && watermark == old(watermark)
    {
      var current := CurrentAfterRemove(currentImage, projectImages, index);
      projectImages := WithoutIndex(projectImages, index);
      currentImage := current;
    }

    method ClearImages()
      modifies this
      ensures projectImages == [] && currentImage == Null
      ensures settings == old(settings) && watermark == old(watermark)
    {
      projectImages := [];
      currentImage := Null;
    }

    /** Shallow merge: the supplied keys win, every other key is kept. */
    method UpdateSettings(newSettings: Record)
      modifies this
      ensures settings == Spread(old(settings), newSettings)
      ensures currentImage == old(currentImage) && projectImages == old(projectImages) && watermark == old(watermark)
    {
      settings := Spread(settings, newSettings);
    }

    method UpdateWatermark(newWatermarkSettings: Record)
      modifies this
      ensures watermark == Spread(old(watermark), newWatermarkSettings)
      ensures currentImage == old(currentImage) && projectImages == old(projectImages) && settings == old(settings)
    {
      watermark := Spread(watermark, newWatermarkSettings);
    }

    method ResetSettings()
      modifies this
      ensures settings == ResetSettingsRecord
      ensures currentImage == old(currentImage) && projectImages == old(projectImages) && watermark == old(watermark)
    {
      settings := ResetSettingsRecord;
    }

    method ResetWatermark()
      modifies this
      ensures watermark == DefaultWatermark
      ensures currentImage == old(currentImage) && projectImages == old(projectImages) && settings == old(settings)
    {
      watermark := DefaultWatermark;
    }

    /** Forgets the current image and resets the settings; the project's
        images and the watermark stay. */
    method ClearImage()
      modifies this
      ensures currentImage == Null && settings == ResetSettingsRecord
      ensures projectImages == old(projectImages) && watermark == old(watermark)
    {
      currentImage := Null;
      settings := ResetSettingsRecord;
    }
  }

  // ---------------------------------------------------------------------
  // What the actions promise

  /** The reset settings hold the neutral slider values and no crop state,
      unlike the initial settings. */
  lemma ResetSettingsDropCropState()
    ensures ResetSettingsRecord.Keys == {"brightness", "contrast", "saturation", "rotation", "scale"}
    ensures "isCropping" !in ResetSettingsRecord && "cropBox" !in ResetSettingsRecord
    ensures forall k :: k in ResetSettingsRecord ==> k in InitialSettings && InitialSettings[k] == ResetSettingsRecord[k]
    ensures !Truthy(Get(ResetSettingsRecord, "isCropping"))
  {
  }

  /** Removing an image takes out exactly that one occurrence: together
      with the removed image the remaining ones are the old ones. */
  lemma RemoveTakesExactlyOne(images: seq<Value>, index: int)
    requires 0 <= index < |images|
    ensures multiset(WithoutIndex(images, index)) + multiset{images[index]} == multiset(images)
  {
    assert images == images[..index] + [images[index]] + images[index + 1..];
  }

  /** Merging settings changes exactly the supplied keys: a key not
      supplied reads as before. */
  lemma UpdateOverridesOnlySupplied(settings: Record, newSettings: Record, key: string)
    ensures key in newSettings ==> Get(Spread(settings, newSettings), key) == newSettings[key]
    ensures key !in newSettings ==> Get(Spread(settings, newSettings), key) == Get(settings, key)
  {
  }

  /** A current image that removeImage keeps and that was one of the
      project's images is still one of them: only the removed position goes,
      and that position did not hold the current image. */
  lemma {:induction false} CurrentStaysListed(current: Value, images: seq<Value>, index: int)
    requires current in images
    requires CurrentAfterRemove(current, images, index) != Null
    ensures CurrentAfterRemove(current, images, index) in WithoutIndex(images, index)
  {
    if 0 <= index < |images| {
      var j :| 0 <= j < |images| && images[j] == current;
      assert j != index;
      var rest := WithoutIndex(images, index);
      if j < index {
        assert rest[j] == current;
      } else {
        assert rest[j - 1] == current;
      }
    }
  }
}
