# moms-watermarker, modelled in Dafny

This project models the image engine and the state stores of the
moms-watermarker web application. The application puts a styled text
watermark on a picture. It also adjusts brightness, contrast and
saturation, applies preset filters, rotates, resizes and thumbnails the
picture, and exports it as a download.

The model covers:

- **Pixel passes** (`pixels.dfy`, `adjustments.dfy`, `filters.dfy`):
  - `applyImageAdjustments` and `applyFilter` are in-place loops over the RGBA
    sample array of an `ImageData`.
  - Each is specified by a function on the buffer, through one combinator,
    `MapRgb`.
  - The byte stores the browser performs are written out (`numeric.dfy`):
    - a `Uint8Array` store truncates and wraps;
    - a `Uint8ClampedArray` store clamps and rounds half to even.
- **The canvas** (`canvas.dfy`): the part of an HTML canvas and its 2D context
  that the routines drive.
  - The drawing state and the save/restore stack.
  - The current transform, kept as the sequence of translate/rotate calls.
  - The width and height attributes, with the reset that assigning them
    causes.
  - The list of drawing operations issued since the last reset.
- **Watermark placement** (`watermark.dfy`): `applyWatermark`.
  - The anchor is a percentage of the canvas size, and the alignment offset is
    applied to it.
  - The rotation is about the middle of the text.
  - The shadow is derived from the font size.
  - The state is scoped by save/restore.
- **Geometry** (`geometry.dfy`): `rotateImage`, `resizeImage` and
  `createThumbnail`, as sizes and the drawing operations issued.
  `createThumbnail` is modelled as written; `CreateThumbnailFitted` draws
  the same thumbnail at the corrected size (see Findings).
- **Export** (`export.dfy`):
  - MIME type, encoder quality and filename resolution for `exportImage`,
    `exportImageWithSettings` and `quickDownload`;
  - the per-image result array of `applyWatermarkToMultipleImages`.
- **Stores** (`editor_store.dfy`, `user_store.dfy`, `watermark_store.dfy`,
  `project_store.dfy`): each zustand store is a class whose fields are the
  store's state. Each action is a method with its full new state in its
  `ensures`.
- **Project service** (`project_service.dfy`): the persisted project array in
  `localStorage`. Shared list operations (filter, upsert and find by id) are in
  `records.dfy`.

JavaScript values are in `js.dfy`:

- Objects are maps and arrays are sequences.
- Object spread is map union with the right side winning.
- Async calls settle as `Ok(value)` or `Failed(message)`.

Floating-point numbers are exact reals.

The model follows the code, in particular in these cases:

- The brightness and contrast tables truncate, because `Uint8Array` stores
  truncate. Brightness 150 therefore gives `min(255, floor(1.5 v))`, not a
  rounded value (`Adjustments.BrightnessOnly150`).
- An unknown export format is not an error. It is encoded as PNG but keeps
  its own name as the file extension (`Export.UnknownFormatKeepsExtension`).
- Rotation by an angle other than 90 or 270 keeps the canvas size and draws
  the turned copy over the cleared canvas, with nothing added to fill the
  corners.
- Resizing to a size that rounds to 0 is not rejected
  (`Geometry.ResizeCanReachZero`). A negative size falls back to the
  canvas default (`Geometry.NegativeScaleGivesDefault`).
- A canvas with a side of 0 makes the operations fail. `getImageData`
  throws an IndexSizeError in adjustments and filters. Drawing the canvas
  onto the temporary canvas throws an InvalidStateError in rotation and
  resizing. So once a resize leaves a side of 0, every later adjustment,
  filter, rotation or resize on that canvas fails.
- Adjustments and filters work on the canvas state in place. They are not
  value-passing functions.
- The batch routine as written never settles when it has to watermark (see
  Findings).

## Model

| member | source | states |
|---|---|---|
| Numeric.ToUint8 | src/utils/imageProcessing.js:101-108 | a value in [0, 256) written into a Uint8Array lookup table is stored as its floor |
| Numeric.ToUint8Clamp | src/utils/imageProcessing.js:119-121 | a value written into ImageData.data: at most 0 gives 0, at least 255 gives 255, otherwise the nearest whole number, ties going to the even one |
| Numeric.MathRound | src/utils/imageProcessing.js:182-183 | Math.round gives the whole number n with n - 0.5 <= x < n + 0.5 |
| Numeric.ClampMonotone | src/utils/imageProcessing.js:269-271 | the clamped store never reverses the order of two values |
| Numeric.ClampKeepsByte | src/utils/imageProcessing.js:119-121 | a whole sample value written back into the clamped array is unchanged |
| Pixels.MapRgb | src/utils/imageProcessing.js:110-123 | a per-pixel pass keeps the buffer length and every alpha sample, and the colour of each pixel becomes f of its old colour |
| Pixels.ForEachPixel | src/utils/imageProcessing.js:110-123 | the stride-4 loop over the sample array leaves exactly MapRgb of the old buffer |
| Pixels.MapCompose | src/utils/imageProcessing.js:254-281 | two passes over the buffer equal one pass of the composed colour map |
| Pixels.MapIdentity | src/utils/imageProcessing.js:110-123 | a pass whose colour map is the identity leaves the buffer unchanged |
| Adjustments.TableStore | src/utils/imageProcessing.js:104-107 | a table entry is the floor of the value clamped into [0, 255] |
| Adjustments.FillLookupTables | src/utils/imageProcessing.js:101-108 | the two filled 256-entry arrays equal the brightness table (i scaled by brightness/100) and the contrast table (the distance from 128 scaled by contrast/100) |
| Adjustments.TablesComputeAdjusted | src/utils/imageProcessing.js:110-122 | reading contrastLookup[brightnessLookup[v]] for each channel, then blending, gives the same buffer as Adjusted, which applies brightness first and then contrast |
| Adjustments.ApplyImageAdjustments | src/utils/imageProcessing.js:91-126 | a canvas with a side of 0 fails with IndexSizeError and keeps its samples; otherwise the sample array after the call is Adjusted of the old one (length and alpha kept by MapRgb) |
| Adjustments.NeutralTone | src/utils/imageProcessing.js:104-108 | at brightness 100 and contrast 100 both tables are the identity |
| Adjustments.NeutralIsIdentity | src/utils/imageProcessing.js:96-122 | with brightness, contrast and saturation all 100 the pass changes no sample |
| Adjustments.BlendAtOneIsIdentity | src/utils/imageProcessing.js:117-122 | skipping the blend at saturation 100 loses nothing: the blend at factor 1 reproduces every channel |
| Adjustments.BrightnessOnly150 | src/utils/imageProcessing.js:105 | brightness 150 alone maps a channel v to min(255, floor(3v/2)) |
| Adjustments.BlendAtZeroIsGray | src/utils/imageProcessing.js:117-122 | the blend at factor 0 gives the three channels one common value |
| Adjustments.ZeroSaturationIsGray | src/utils/imageProcessing.js:117-122 | with saturation 0 every pixel of the result has R = G = B |
| Adjustments.BrightnessMonotone | src/utils/imageProcessing.js:105 | with non-negative brightness the brightness table is monotone |
| Adjustments.ContrastMonotone | src/utils/imageProcessing.js:106-107 | with non-negative contrast the contrast table is monotone |
| Adjustments.ToneMonotone | src/utils/imageProcessing.js:101-114 | with non-negative sliders the two tables together keep the order of intensities |
| Filters.ApplyFilter | src/utils/imageProcessing.js:248-288 | a canvas with a side of 0 fails with IndexSizeError and keeps its samples; otherwise the sample array after the call is Filtered of the old one: grayscale, sepia or invert per pixel, and any other name changes nothing |
| Filters.GrayIsRoundedMean | src/utils/imageProcessing.js:256-259 | the stored gray value is the channel mean rounded to nearest, (r + g + b + 1) div 3 |
| Filters.GrayscaleIsGray | src/utils/imageProcessing.js:254-261 | after grayscale the three channels of every pixel agree |
| Filters.GrayOfGray | src/utils/imageProcessing.js:256-259 | a pixel that is already gray is unchanged by grayscale |
| Filters.GrayscaleIdempotent | src/utils/imageProcessing.js:254-261 | grayscale applied twice equals grayscale applied once |
| Filters.InvertInvolution | src/utils/imageProcessing.js:275-281 | invert applied twice gives back the original buffer |
| Filters.InvertSwapsBlackAndWhite | src/utils/imageProcessing.js:277-279 | invert maps black to white and white to black |
| Filters.SepiaOfBlackAndWhite | src/utils/imageProcessing.js:263-273 | sepia keeps black black and turns white into (255, 255, 239) |
| Filters.SepiaIsWarm | src/utils/imageProcessing.js:269-271 | after sepia, blue <= green <= red in every pixel |
| Filters.UnknownFilterKeepsImage | src/utils/imageProcessing.js:283-284 | a filter name other than the three leaves the buffer unchanged |
| Js.Spread | src/store/editorStore.js:59 | {...base, ...updates} has the keys of both, the supplied values where updates has the key, and the base values elsewhere |
| Js.SpreadIdempotent | src/store/editorStore.js:57-65 | merging the same updates twice equals merging them once, and merging nothing changes nothing |
| Records.WithoutId | src/store/watermarkStore.js:26-29 | filtering by id keeps exactly the records whose id differs and never lengthens the list |
| Records.WithoutIdAppend | src/services/projectService.js:57-59 | filtering distributes over concatenation, so the surviving records keep their order |
| Records.WithoutAbsentId | src/services/projectService.js:57-59 | removing an id no record has leaves the list unchanged |
| Records.ReplaceWhereId | src/services/projectService.js:16-17 | the replacing map keeps the length, puts the replacement at every index holding the id, and leaves the other indices alone |
| Records.MergeWhereId | src/store/watermarkStore.js:19-24 | the merging map keeps the length, merges the update into every record with the id, and leaves the other records alone |
| Records.FindId | src/services/projectService.js:33 | find returns None exactly when no record has the id; otherwise it returns the first record that has it |
| Records.FindAfterReplace | src/services/projectService.js:16-17 | after replacing a present id with a record carrying that id, find returns that record |
| Records.FindAfterRemove | src/services/projectService.js:57-59 | after removing an id, find returns nothing for it |
| Records.WithoutIndex | src/store/editorStore.js:45 | filtering by index drops exactly the element at a valid index, keeps the others in order, and changes nothing for an index outside the array |
| Records.At | src/store/editorStore.js:46 | inside the array the element at index, which is one of its elements; outside it undefined |
| EditorStore.CurrentAfterRemove | src/store/editorStore.js:46-48 | currentImage is kept or cleared to null; a defined current image is cleared exactly when it is null already or is the image at the removed position |
| EditorStore.EditorStore.constructor | src/store/editorStore.js:4-33 | the store starts with no image, no project images, the initial settings and the default watermark |
| EditorStore.EditorStore.SetCurrentImage | src/store/editorStore.js:36 | only currentImage changes |
| EditorStore.EditorStore.AddImages | src/store/editorStore.js:38-41 | the new images are appended after the old ones, both orders kept, and nothing else changes |
| EditorStore.EditorStore.RemoveImage | src/store/editorStore.js:43-49 | the image at index is removed, currentImage is cleared only when it was that image, and nothing else changes |
| EditorStore.EditorStore.ClearImages | src/store/editorStore.js:51-55 | the image list becomes empty and currentImage null; settings and watermark are kept |
| EditorStore.EditorStore.UpdateSettings | src/store/editorStore.js:57-60 | settings become the shallow merge of the old settings and the supplied ones; nothing else changes |
| EditorStore.EditorStore.UpdateWatermark | src/store/editorStore.js:62-65 | the watermark becomes the shallow merge of the old one and the supplied settings; nothing else changes |
| EditorStore.EditorStore.ResetSettings | src/store/editorStore.js:67-76 | settings become the five neutral sliders; nothing else changes |
| EditorStore.EditorStore.ResetWatermark | src/store/editorStore.js:78-92 | the watermark becomes exactly the initial default; nothing else changes |
| EditorStore.EditorStore.ClearImage | src/store/editorStore.js:94-104 | currentImage becomes null and settings are reset; the image list and watermark are kept |
| EditorStore.ResetSettingsDropCropState | src/store/editorStore.js:67-76 | the reset settings hold brightness, contrast and saturation 100, rotation 0 and scale 100, agree with the initial values, and have no isCropping or cropBox key |
| EditorStore.RemoveTakesExactlyOne | src/store/editorStore.js:45 | the remaining images, together with the removed one, are exactly the old images as a multiset |
| EditorStore.UpdateOverridesOnlySupplied | src/store/editorStore.js:57-65 | after a merge a supplied key reads as supplied and any other key reads as before |
| EditorStore.CurrentStaysListed | src/store/editorStore.js:43-48 | a current image that was listed and is kept stays listed after the removal |
| UserStore.Stamped | src/store/userStore.js:29 | the stamped project has the project's keys plus timestamp; timestamp = now and every other key is kept |
| UserStore.RecentAfterAdd | src/store/userStore.js:26-32 | the new entry comes first, followed by the old list cut so that the length is at most 10 |
| UserStore.UserStore.constructor | src/store/userStore.js:8-18 | the store starts with the default preferences and no recent projects |
| UserStore.UserStore.UpdatePreferences | src/store/userStore.js:21-24 | preferences become the shallow merge of the old ones and the supplied ones; the recent list is kept |
| UserStore.UserStore.AddRecentProject | src/store/userStore.js:26-32 | the recent list becomes RecentAfterAdd of the stamped project; preferences are kept |
| UserStore.UserStore.ClearRecentProjects | src/store/userStore.js:34-35 | the recent list becomes empty; preferences are kept |
| UserStore.UserStore.ResetPreferences | src/store/userStore.js:37-47 | preferences become exactly the defaults; the recent list is kept |
| UserStore.RecentAfterAdds | src/store/userStore.js:26-32 | after any number of adds the list has at most 10 entries and the last one added is first |
| UserStore.OldestDropOut | src/store/userStore.js:28-31 | after 10 or more adds the list is exactly the last 10 projects added, newest first |
| UserStore.FillPrefix | src/store/userStore.js:28-31 | after k <= 10 adds the list starts with those k projects, newest first, followed by the surviving earlier entries |
| UserStore.Fill | src/store/userStore.js:28-31 | ten adds replace whatever the list held |
| WatermarkStore.WithId | src/store/watermarkStore.js:16 | the added template has the template's keys plus id; id = now and every other key is kept |
| WatermarkStore.WatermarkStore.constructor | src/store/watermarkStore.js:4-11 | the store starts with no templates, no current template and none being edited |
| WatermarkStore.WatermarkStore.AddTemplate | src/store/watermarkStore.js:14-17 | the template, with id now, is appended; the other fields are kept |
| WatermarkStore.WatermarkStore.UpdateTemplate | src/store/watermarkStore.js:19-24 | the update is merged into every template with the id; the other fields are kept |
| WatermarkStore.WatermarkStore.DeleteTemplate | src/store/watermarkStore.js:26-29 | every template with the id is removed; the other fields are kept |
| WatermarkStore.WatermarkStore.SetCurrentTemplate | src/store/watermarkStore.js:31-32 | only currentTemplate changes |
| WatermarkStore.WatermarkStore.SetEditingTemplate | src/store/watermarkStore.js:34-35 | only editingTemplate changes |
| WatermarkStore.WatermarkStore.ClearEditingTemplate | src/store/watermarkStore.js:37-38 | editingTemplate becomes null and nothing else changes |
| WatermarkStore.UpdateThenFind | src/store/watermarkStore.js:19-24 | after an update that does not change the id, find returns the merged template; an absent id leaves the list unchanged |
| WatermarkStore.DeleteAbsentOrPresent | src/store/watermarkStore.js:26-29 | deleting an absent id is a no-op, and deleting a present id shortens the list |
| WatermarkStore.DeleteShortens | src/store/watermarkStore.js:28 | removing a present id makes the list strictly shorter |
| ProjectService.Parsed | src/services/projectService.js:6 | nothing stored reads as [], a stored array reads as itself, and corrupt text fails |
| ProjectService.ProjectToSave | src/services/projectService.js:9-13 | the saved project has the project's keys plus id and lastModified; it keeps a truthy id, otherwise gets the fresh id; lastModified is now and every other key is kept |
| ProjectService.ProjectStorage.SaveProject | src/services/projectService.js:3-28 | unreadable storage or a failing write rejects with "Failed to save project" and leaves the slot alone; otherwise the upserted or appended array is stored and the saved project returned |
| ProjectService.ProjectStorage.LoadProject | src/services/projectService.js:30-44 | succeeds exactly when storage is readable and some project has the id, giving the first such project; otherwise fails with "Failed to load project" |
| ProjectService.ProjectStorage.GetAllProjects | src/services/projectService.js:46-53 | returns the stored array, [] when nothing is stored, and "Failed to get projects" for corrupt storage |
| ProjectService.ProjectStorage.DeleteProject | src/services/projectService.js:55-64 | stores the array without the id, or rejects with "Failed to delete project" and leaves the slot alone |
| ProjectService.SaveNewAppends | src/services/projectService.js:9-18 | saving a project without an id appends exactly one entry, carrying the fresh id, and keeps the earlier entries |
| ProjectService.SaveExistingUpserts | src/services/projectService.js:16-23 | saving a project with an id keeps the length, and an id no stored project has leaves the array unchanged |
| ProjectService.SaveThenFind | src/services/projectService.js:9-23 | after a save, looking up the saved id finds the saved project |
| ProjectService.FindAfterAppend | src/services/projectService.js:18 | an appended record with a new id is the one found for that id |
| ProjectStore.NewProject | src/store/projectStore.js:25-29 | the keys are the project's plus createdAt and lastModified; both are now and every other key is kept |
| ProjectStore.UpdatedProject | src/store/projectStore.js:49-53 | the keys are those of the project and the updates plus lastModified; the update keys win, the other keys are kept, and lastModified is now |
| ProjectStore.CurrentAfterDelete | src/store/projectStore.js:88-90 | the open project stays open or is closed; one left open never has the deleted id, and only the project with that id is closed |
| ProjectStore.OpenProjectSurvivesDelete | src/store/projectStore.js:86-90 | an open project that was in the list and stays open is still in the list after the delete |
| ProjectStore.ProjectStore.constructor | src/store/projectStore.js:5-9 | the store starts with no projects, none open, not loading and no error |
| ProjectStore.ProjectStore.FetchProjects | src/store/projectStore.js:12-20 | ends with isLoading false; on success projects become the stored list, on failure the error is recorded and the list is kept |
| ProjectStore.ProjectStore.CreateProject | src/store/projectStore.js:22-41 | on success the saved project is appended and opened; on failure the error is recorded and projects, the open project and storage are unchanged |
| ProjectStore.ProjectStore.UpdateProject | src/store/projectStore.js:43-68 | with no local project of that id it fails with "Project not found" and saves nothing; on success it replaces the entries with the id, opens the saved project and stores ProjectsAfterSave; a failed save of a found project fails with "Failed to save project"; on failure the state is unchanged apart from the error |
| ProjectStore.ProjectStore.LoadProject | src/store/projectStore.js:70-80 | opens the project the service returns, or records "Failed to load project" and keeps the open project |
| ProjectStore.ProjectStore.DeleteProject | src/store/projectStore.js:82-97 | on success the id is removed from storage and from the list, and the open project is closed if it has that id; on failure nothing changes apart from the error |
| ProjectStore.ProjectStore.ClearCurrentProject | src/store/projectStore.js:99-101 | only currentProject changes, to null |
| ProjectStore.UpdateKeepsListAndFinds | src/store/projectStore.js:46-62 | a successful update keeps the list length, and the saved project is then found under its id |
| ProjectStore.DeleteRemovesOnlyThatId | src/store/projectStore.js:87 | a project survives deletion exactly when its id is not the deleted one |
| Canvas2D.CanvasDimension | src/utils/imageProcessing.js:182-183 | a width or height in 0 .. 2^31-1 is kept, and a negative one (down to -2^31) gives the default |
| Canvas2D.Context.Save | src/utils/imageProcessing.js:37 | pushes the current state and changes nothing else |
| Canvas2D.Context.Restore | src/utils/imageProcessing.js:88 | pops the last saved state into the current state; with nothing saved it does nothing |
| Canvas2D.Context.SetGlobalAlpha | src/utils/imageProcessing.js:40 | sets the alpha only when it is in [0, 1] |
| Canvas2D.Context.SetShadowBlur | src/utils/imageProcessing.js:79 | sets the blur only when it is non-negative |
| Canvas2D.Canvas.SetWidth | src/utils/imageProcessing.js:151 | the width takes the converted value and the context is reset: default state, empty stack, blank bitmap |
| Canvas2D.Canvas.SetHeight | src/utils/imageProcessing.js:152 | the height takes the converted value and the context is reset |
| Canvas2D.PivotTurn | src/utils/imageProcessing.js:70-72 | translate(p), rotate, translate(-p) turns every point about p |
| Canvas2D.PivotFixed | src/utils/imageProcessing.js:70-72 | the pivot itself is not moved by that rotation |
| Canvas2D.DimensionRoundTrip | src/utils/imageProcessing.js:136-137 | copying a canvas size onto another canvas keeps it |
| Watermark.PercentOf | src/utils/imageProcessing.js:51-52 | percent % of a non-negative total lies in [0, total] for 0..100 %, and is half the total at 50 % and the whole total at 100 % |
| Watermark.Anchor | src/utils/imageProcessing.js:51-52 | for positions in 0..100 % the anchor lies on the canvas; 50 % is the middle and 100 % is the right edge |
| Watermark.AlignedX | src/utils/imageProcessing.js:55-64 | center puts the anchor at x + W/2, right at x + W, and any other alignment at x |
| Watermark.StyleText | src/utils/imageProcessing.js:40-82 | the style calls leave the state TextState (alpha, font, colour, middle baseline, rotation about the pivot when non-zero, shadow when enabled) and change neither the stack nor the bitmap |
| Watermark.ApplyWatermark | src/utils/imageProcessing.js:19-89 | empty text draws nothing; otherwise exactly one fillText is added, at the aligned anchor, with TextState, and the context state and stack afterwards are as before |
| Watermark.RotationAboutPivot | src/utils/imageProcessing.js:67-74 | with a rotation, the pivot (x + W/2, y) stays put and the text origin is turned about it |
| Watermark.NoRotationKeepsTransform | src/utils/imageProcessing.js:67 | rotation 0 leaves the transform as it was |
| Watermark.ShadowFromSize | src/utils/imageProcessing.js:77-82 | with the shadow enabled, the shadow alpha is shadowOpacity, the blur size/8 and the offsets size/16; when disabled the old shadow is kept |
| Watermark.DefaultPlacementCentersText | src/utils/imageProcessing.js:51-64 | centred at 50 % / 50 %, the middle of the text is the middle of the canvas |
| Watermark.RightEdgeExample | src/utils/imageProcessing.js:51-63 | right aligned at 100 % / 50 % on 400 by 200 with W = 120, the text starts at (280, 100) |
| Geometry.Copy | src/utils/imageProcessing.js:132-140 | the temporary canvas has the canvas's size and one operation: the whole canvas drawn at the origin, unscaled, untransformed and opaque |
| Geometry.CopyToTemp | src/utils/imageProcessing.js:132-140 | a fresh canvas whose picture is Copy of the canvas |
| Geometry.RotatedSize | src/utils/imageProcessing.js:149-153 | exactly 90 and 270 degrees swap width and height; other angles keep them; the area is kept |
| Geometry.Centered | src/utils/imageProcessing.js:159-163 | the copy is drawn centred on the origin at its own size |
| Geometry.RotateImage | src/utils/imageProcessing.js:128-165 | a canvas with a side of 0 fails with InvalidStateError and is left untouched; otherwise the new size is RotatedSize, a quarter turn leaves a reset context with the one turned copy drawn, any other angle adds a clear and the turned copy, and state and stack are restored |
| Geometry.QuarterTurnFillsCanvas | src/utils/imageProcessing.js:149-164 | after a 90 degree turn the corners of the copy land on the corners of the swapped canvas |
| Geometry.RotationKeepsCenter | src/utils/imageProcessing.js:156-163 | the middle of the copy lands on the middle of the canvas for every angle |
| Geometry.HalfTurnSwapsCorners | src/utils/imageProcessing.js:149-164 | 180 degrees keeps the size and maps each corner of the copy to the opposite corner |
| Geometry.CenterTurnedMoves | src/utils/imageProcessing.js:156-158 | the rotation transform turns a point about the origin and then moves it to the canvas middle |
| Geometry.ResizeImage | src/utils/imageProcessing.js:167-194 | a canvas with a side of 0 fails with InvalidStateError and is left untouched; otherwise width and height become the rounded scaled sides, and the context holds exactly one drawing of the old picture stretched over the new size |
| Geometry.ResizeCanReachZero | src/utils/imageProcessing.js:182-183 | a 1-pixel side at 40 % rounds to a side of 0 |
| Geometry.ScaleDownNeverGrows | src/utils/imageProcessing.js:182-183 | a scale of 0..100 % never makes a side longer |
| Geometry.FullScaleKeepsSize | src/utils/imageProcessing.js:182-183 | 100 % keeps the side |
| Geometry.ScaleMonotone | src/utils/imageProcessing.js:182-183 | a larger non-negative scale never gives a smaller side |
| Geometry.NegativeScaleGivesDefault | src/utils/imageProcessing.js:182-183 | a scale that rounds a side to a negative number falls back to the default size |
| Geometry.ThumbnailSizeAsWritten | src/utils/imageProcessing.js:221-234 | only the longer side is compared with its own limit; when over it, it becomes the limit and the other side is the proportional length rounded to the nearest integer (within 0.5); otherwise the size is kept |
| Geometry.ThumbnailAsWrittenLeavesBox | src/utils/imageProcessing.js:221-234 | 400 by 300 in a 300 by 100 box gives 300 by 225, taller than the box |
| Geometry.ThumbnailSize | src/utils/imageProcessing.js:221-234 | the corrected size always fits the box, is unchanged when the image already fits, and otherwise sets the side over its limit by the larger factor to that limit and the other side to the proportional length within 0.5 |
| Geometry.ThumbnailSquareBoxAgrees | src/utils/imageProcessing.js:215-234 | for a square box, such as the default 300 by 300, the written and the corrected sizes agree |
| Geometry.CreateThumbnail | src/utils/imageProcessing.js:215-246 | with limits defaulting to 300, the thumbnail is a JPEG at quality 0.7 of a canvas of ThumbnailSizeAsWritten's size holding the whole image drawn at that size |
| Geometry.CreateThumbnailFitted | src/utils/imageProcessing.js:215-246 | the same thumbnail at the corrected ThumbnailSize, so it always lies in the box |
| Geometry.DefaultBoxAgrees | src/utils/imageProcessing.js:215-234 | with the default 300 by 300 box the written and the corrected thumbnails have the same size |
| Export.Lower | src/utils/image-export.js:15 | lower-casing keeps the length and maps each character on its own |
| Export.LowerIdempotent | src/utils/image-export.js:15 | lower-casing twice equals lower-casing once |
| Export.MimeFor | src/utils/image-export.js:10-15 | png, jpeg and webp select image/ followed by the key; any other key selects image/png |
| Export.ExportMime | src/utils/image-export.js:10-15 | the MIME type is always one of the three, and PNG when no format is given |
| Export.MimeIgnoresCase | src/utils/image-export.js:15 | the case of the format name does not change the MIME type |
| Export.ExportImage | src/utils/imageProcessing.js:196-213 | encodes the canvas with the format's MIME type (default png); PNG is encoded without a quality, any other format with the quality (default 0.8) |
| Export.ExportQuality | src/utils/image-export.js:18 | PNG gets 1; otherwise quality/100, where a missing or zero quality counts as 80 |
| Export.ExportFilename | src/utils/image-export.js:24 | the name is the filename (or watermarked-image), a dot, and the lower-cased format (or png); its length is the two parts' lengths plus one |
| Export.ExportImageWithSettings | src/utils/image-export.js:3-34 | no canvas rejects with "No canvas element provided", a throwing encoder or download with "Failed to export image"; otherwise the encoded canvas is downloaded under ExportFilename |
| Export.UnknownFormatKeepsExtension | src/utils/image-export.js:15-24 | format "BMP" encodes a PNG named watermarked-image.bmp |
| Export.DefaultExport | src/utils/image-export.js:15-24 | empty settings give image/png, quality 0.8 and watermarked-image.png |
| Export.DashedTimestamp | src/utils/image-export.js:44 | every ':' and '.' becomes '-', the other characters and the length are kept, and no ':' or '.' remains |
| Export.QuickDownload | src/utils/image-export.js:36-54 | no canvas rejects with "No canvas element provided", a failure with "Failed to download image"; otherwise the PNG is downloaded as watermarked-image-<timestamp>.png |
| Export.QuickDownloadNameHasOneDot | src/utils/image-export.js:44-45 | the quick-download name has no ':' and no '.' apart from the one in ".png" |
| Export.Rendered | src/utils/image-export.js:62-88 | the rendered PNG has the image's size and holds the whole image drawn at the origin in the default state, plus, exactly when watermark text is given, that text at TextOrigin in TextState as applyWatermark draws it |
| Export.RenderedCentersDefaultWatermark | src/utils/image-export.js:62-88 | with the default placement the watermark text is centred on the rendered image |
| Export.ResultFor | src/utils/image-export.js:83-98 | an image that loads gives a success entry, and one that fails gives a failure entry carrying the error's message |
| Export.RenderImage | src/utils/image-export.js:62-88 | drawing and watermarking on a fresh canvas gives Rendered |
| Export.ApplyWatermarkToMultipleImages | src/utils/image-export.js:56-103 | the corrected batch returns one result per image, in input order, and a failing image does not stop the later ones |
| Export.ApplyWatermarkToMultipleImagesAsWritten | src/utils/image-export.js:56-103 | the batch as written never settles exactly when watermark text is given and some image loads; otherwise it returns one result per image |
| Export.BatchHangsWithWatermark | src/utils/image-export.js:77-79 | one image that loads plus watermark text meets the never-settles condition, where the corrected result holds the drawn text |
| Export.NoTextSameResults | src/utils/image-export.js:77-79 | without watermark text the written and the corrected batch give the same entries |

## Left out

- processImage (src/utils/imageProcessing.js:3-17) is not modelled. It decodes a file into an image with the browser's decoder and FileReader, which are I/O.
- Rasterisation is not modelled: a bitmap is the list of drawing operations issued on it. The resampling of drawImage and the byte output of toDataURL are not computed. An encoding is the picture, the MIME type and the quality requested.
- The text width from `measureText` is a parameter (`textWidth`). Math.cos and Math.sin of the rotation are a parameter (`Turn`).
- Floating-point rounding is not modelled: the coefficients and percentages are exact reals.
- NaN is not modelled, and neither are settings of the wrong JavaScript type. Formats are strings or missing, qualities are reals or missing, and thumbnail limits are natural numbers.
- downloadFile, generateUniqueId, Date.now() and new Date().toISOString() are parameters or a returned value.
  - Whether toDataURL, downloadFile or localStorage.setItem throws is a boolean parameter (`throws`, `setItemThrows`).
  - Every clock read in a store action and its service call is one `now`.
- localStorage text that parses as JSON but is not an array of objects is not modelled; the slot is missing, an array, or corrupt. The JSON.stringify / JSON.parse round trip the stored array goes through (src/services/projectService.js:6, 21) is not modelled either: the slot keeps records verbatim, whereas the round trip drops keys whose value is undefined and converts other values JSON cannot hold.
- zustand's persist middleware for the user store is not modelled, because it is storage I/O.
- Interleaving of the async store actions is not modelled. Each service call is one atomic step, so the transient `isLoading: true` is only visible as the final `false`.
- The shadow colour string `rgba(0, 0, 0, shadowOpacity)` is its alpha value. The font string `${size}px ${font}` is its two parts; CSS font parsing is not modelled.
- Lower-casing handles ASCII letters only.
  - Format names that are properties of Object.prototype (such as "constructor") would select a non-string MIME value in the source; they fall back to PNG here.
- Canvas2D.CanvasDimension: the ensures covers values from -2^31 to 2^31-1; larger magnitudes are reduced modulo 2^32 by the body, but no ensures states it.
- Geometry.ScaleMonotone: requires that the larger rounded side still fits a canvas dimension, because above 2^31-1 the attribute falls back to its default.
- Export.ApplyWatermarkToMultipleImagesAsWritten: textWidth and turn are fixed, because no watermark is ever drawn in the settled case.
- Canvas2D.Context.SetFillStyle: any string is stored; the browser's CSS colour parsing, which ignores an invalid colour and normalises a valid one, is not modelled.
- The React components, routing, drag-and-drop intake and styling are outside the modelled core.

## Findings

| source | as written | input that shows it | evidently intended | confidence | as-written member | corrected member |
|---|---|---|---|---|---|---|
| src/utils/imageProcessing.js:221-234 | createThumbnail compares only the longer side with its own limit | a 400 by 300 image with maxWidth 300 and maxHeight 100 gives 300 by 225, taller than the box | the thumbnail fits inside maxWidth by maxHeight with the aspect ratio kept | not executed | Geometry.ThumbnailAsWrittenLeavesBox | Geometry.ThumbnailSize |
| src/utils/image-export.js:1 | applyWatermarkToMultipleImages calls applyWatermark (lines 77-79), which the file does not import, so the onload handler throws a ReferenceError and resolve is never called | one image that loads, with watermark text "x" | one result per image, each carrying the watermarked PNG | not executed | Export.BatchHangsWithWatermark | Export.ApplyWatermarkToMultipleImages |
