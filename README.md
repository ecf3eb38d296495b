# Glove customizer: compositor, material binder and image uploader

This project models the core of a 3D boxing-glove customizer. The model has
three parts.

- **Compositor** (`compositor.dfy`). `generateTextTexture` paints a square
  canvas and wraps it as a texture. The canvas gets a background colour, each
  custom image layer in list order, then optional text. The model is a
  method that appends canvas commands to a buffer. Its result is tied to the
  specification function `Plan`. Lemmas prove the following:
  - the canvas side is truncated (0.7 gives 358, not 358.4);
  - the background covers the canvas, and fills 512 by 512 logical units
    exactly when `512 * scale` is an integer;
  - every layer's image is drawn exactly once, in list order;
  - every `save` is matched by a `restore`;
  - text is painted last, and only when non-empty;
  - the promise rejects exactly when some image fails to load.
- **Material binder** (`binder.dfy`). `applyMaterials` runs nine awaited
  `applyColor` calls, one per glove zone. Each call sets the colour of
  the zone's mesh material. When the zone has images, the call then awaits a
  composed texture as the colour map; otherwise it clears the map. Either
  way it flags the material for update.
  - Meshes and their materials are objects (`Material` is a class), and two
    mesh names may share one material.
  - A rejected texture ends the chain: the zone's colour is already set, and
    its map and the later zones are left as they were.
  - Lemmas prove which call wins on a shared material, that `needsUpdate` is
    never cleared, which zones end without a map, and that running the
    binder twice equals running it once.
- **Uploader** (`uploader.dfy`). The panel and the store are classes whose
  methods update their fields. An upload goes through three steps:
  - a file above 2 MiB on a mobile browser, or above 5 MiB elsewhere, is
    refused with an error naming the limit;
  - a dropped item that is not an image is refused;
  - otherwise "Uploading..." is shown, then the file is sent, and a truthy
    URL is added to the selected zone.

  Editing a transform, separately, changes one property and clamps a scale
  into [0.1, 1.5].

`customization.dfy` holds the store's record shapes and its two mutations.
`wrappers.dfy` holds `Option`.

Where code and documentation differ, the model follows the code:

- The scale clamp is [0.1, 1.5] on every device. Only the slider's upper
  end (`max`) is 1.0 on a narrow window.
- A rejected texture stops `applyMaterials` at that zone. The zones after it
  are not updated.
- `canvas.width = 512 * scale` stores a truncated integer. So on a narrow
  window the canvas is 358 pixels wide, and the background fills 358/0.7
  logical units, not 512.
- Image and text positions, the image scale, the font size and the text's
  stroke width are multiplied by `scale` (lines 55, 57, 65, 67 and 70) inside a context that is
  already scaled by `scale` (line 35), so they are scaled twice. The model
  keeps this as written. On a narrow window a default layer gets
  `Translate(179.2, 179.2)` and `Scale(0.7)` after the context's
  `Scale(0.7)`: its centre lands at 125.44 pixels of a 358-pixel canvas,
  drawn at 0.49 of its size, so it is not centred.
- The upload helper returns `res.json().then(...)` from inside its `try`
  without awaiting it. A failure while reading the body therefore escapes the
  `catch` and rejects `processFile`. The status stays at "Uploading..." and
  nothing is added. `UploadReply.Rejected` models this.

## Model

| member | source | states |
|---|---|---|
| `Customization.AddImage` | src/components/customizer/ImageUploader.tsx:82 | the zone gains one layer at the end, with the given id and URL at the default transform; every other zone is unchanged |
| `Customization.UpdateTransform` | src/components/customizer/ImageUploader.tsx:106 | same zones and list lengths; ids and URLs unchanged; exactly the layers with that id get the new transform |
| `Compositor.CanvasSide` | src/utils/GenerateTextTexture.ts:31 | the side is the integer part of `512 * scale` |
| `Compositor.GenerateTextTexture` | src/utils/GenerateTextTexture.ts:17-87 | the commands issued and the texture returned equal the specification `Plan`; a failed image load rejects |
| `Compositor.ImagePlanSnoc` | src/utils/GenerateTextTexture.ts:45-60 | painting one more loaded layer appends exactly its save/translate/rotate/scale/draw/restore block |
| `Compositor.ImagePlanFailsIff` | src/utils/GenerateTextTexture.ts:45-46 | the image loop rejects if and only if some layer's image fails to load |
| `Compositor.LoadFailureRejects` | src/utils/GenerateTextTexture.ts:89-96 | one failed load (`onerror`) rejects the whole composition |
| `Compositor.PlanFailsIff` | src/utils/GenerateTextTexture.ts:17-87 | `generateTextTexture` rejects if and only if some image fails to load, whatever the text and colours |
| `Compositor.PlanBackground` | src/utils/GenerateTextTexture.ts:29-42 | the canvas side is truncated `512*scale`; the one fill is the background colour (black by default) over `side/scale`, which covers the canvas; with the default scale it is 512 by 512 |
| `Compositor.IntegralSideFillsLogicalArea` | src/utils/GenerateTextTexture.ts:31-41 | when `512*scale` is an integer the background fills exactly 512 by 512 logical units |
| `Compositor.MobileCanvasIsTruncated` | src/utils/GenerateTextTexture.ts:31 | the narrow-window scale 0.7 gives a 358-pixel canvas |
| `Compositor.HeaderKinds` | src/utils/GenerateTextTexture.ts:35-42 | the set-up and background draw neither text nor images |
| `Compositor.ImagePlanKinds` | src/utils/GenerateTextTexture.ts:54-59 | the image part consists only of saves, restores, transforms and image draws |
| `Compositor.ImagePlanBlocks` | src/utils/GenerateTextTexture.ts:45-60 | six commands per layer, block `i` being layer `i`'s block at its loaded size |
| `Compositor.DrawsOfBlock` | src/utils/GenerateTextTexture.ts:58 | a layer block draws its own image (named by its URL) once, centred at its natural size |
| `Compositor.ImagePlanDraws` | src/utils/GenerateTextTexture.ts:45-60 | the draws of the image part are one per layer, in list order, draw `i` painting layer `i`'s image |
| `Compositor.LayerOrderMatters` | src/utils/GenerateTextTexture.ts:45-60 | two layers from different URLs painted in the other order give a different plan |
| `Compositor.OnlyLayersDraw` | src/utils/GenerateTextTexture.ts:35-76 | the background and the text draw no image |
| `Compositor.PlanDraws` | src/utils/GenerateTextTexture.ts:17-87 | the texture draws each layer's image exactly once in list order, draw `i` from layer `i`'s URL; with no images it is only background and text |
| `Compositor.ImagePlanRestores` | src/utils/GenerateTextTexture.ts:54-59 | replaying the image part returns the context to the transform and save stack it started from |
| `Compositor.HeaderReplay` | src/utils/GenerateTextTexture.ts:35-42 | after the background the context holds only the initial `scale(scale, scale)` with an empty save stack |
| `Compositor.TextPartRestores` | src/utils/GenerateTextTexture.ts:63-76 | the text block leaves the context as it found it |
| `Compositor.PlanBalanced` | src/utils/GenerateTextTexture.ts:35-76 | every save is matched by a restore; the canvas ends with only the initial scale applied |
| `Compositor.PlanText` | src/utils/GenerateTextTexture.ts:63-76 | text is drawn if and only if it is non-empty; then it is stroked white at width `4*scale` and filled in the text colour, as the last block |
| `Compositor.PlanSampler` | src/utils/GenerateTextTexture.ts:78-86 | the texture is not flipped, clamps to edge on both axes and is flagged for upload |
| `MaterialBinder.Target` | src/components/customizer/GloveModel.tsx:29-31 | a zone is painted if and only if its mesh exists and has a material with a colour |
| `MaterialBinder.UploadZonesAreComposed` | src/components/customizer/ImageUploader.tsx:14 | every zone the uploader offers has its list composed by the call for that zone's own mesh; the "WristOutline" list is composed on the "Wrist Outline" mesh but cannot be uploaded to |
| `MaterialBinder.Step` | src/components/customizer/GloveModel.tsx:24-58 | one zone call changes materials of the scene only; its effect is stated by `StepEffect` |
| `MaterialBinder.RunCalls` | src/components/customizer/GloveModel.tsx:61-81 | the awaited chain changes materials of the scene only; its effect is stated by the lemmas below |
| `MaterialBinder.ApplyColor` | src/components/customizer/GloveModel.tsx:24-58 | the new state of the scene's materials, and whether the call returned, are those of `Step` |
| `MaterialBinder.ApplyMaterials` | src/components/customizer/GloveModel.tsx:23-82 | the new state of the scene's materials, and whether the chain finished, are those of running the nine calls in order, stopping at a rejection |
| `MaterialBinder.StepEffect` | src/components/customizer/GloveModel.tsx:29-56 | no target: nothing changes; otherwise only that material changes, its colour is set, the call returns if and only if it has no images or the texture resolves, and then the map is the texture or null and `needsUpdate` is set; a rejection changes only the colour |
| `MaterialBinder.ZoneTexture` | src/components/customizer/GloveModel.tsx:34-47 | a zone's texture fails if and only if one of its images fails to load; otherwise it is 358 or 512 pixels by window width, scaled accordingly, filled with the zone colour, without text, clamped, unrepeated and unshifted |
| `MaterialBinder.ZoneTextureDraws` | src/components/customizer/GloveModel.tsx:34-40 | a zone's texture draws exactly that zone's images, once each, in list order |
| `MaterialBinder.RunUntouched` | src/components/customizer/GloveModel.tsx:61-81 | a material no call targets is unchanged by the chain |
| `MaterialBinder.RunSplit` | src/components/customizer/GloveModel.tsx:61-81 | the chain of `a + b` is `a`, then `b` only if `a` finished |
| `MaterialBinder.FailureStopsChain` | src/components/customizer/GloveModel.tsx:35-40 | after a rejection at call `k` the result is that call's, the chain does not finish, and materials untouched up to `k` stay as they were |
| `MaterialBinder.LastWriteWins` | src/components/customizer/GloveModel.tsx:61-81 | once the calls up to and including call `k` have returned, a material no later call names ends with call `k`'s colour and map and flagged for update, even if a later call rejects |
| `MaterialBinder.PrefixReturned` | src/components/customizer/GloveModel.tsx:61-81 | if the calls up to and including call `k` returned, the calls before `k` returned and call `k` itself returned |
| `MaterialBinder.AfterReturnedCall` | src/components/customizer/GloveModel.tsx:61-81 | after a returned call `k`, a material no later call names keeps what call `k` wrote |
| `MaterialBinder.NeverCleared` | src/components/customizer/GloveModel.tsx:51-56 | the binder never clears `needsUpdate` |
| `MaterialBinder.ProcessedNeedsUpdate` | src/components/customizer/GloveModel.tsx:56 | a material whose call returned ends flagged for update, even if a later call rejects |
| `MaterialBinder.NoImagesNoMap` | src/components/customizer/GloveModel.tsx:52-54 | in a chain that returned, a material targeted only by calls without images ends with no map and flagged for update |
| `MaterialBinder.UnheldZoneClearsMap` | src/components/customizer/GloveModel.tsx:27-56 | a zone the store holds no list for is called with the `[]` default, so the call returns with the material in the zone colour, no map and flagged for update |
| `MaterialBinder.UnheldZoneHasNoMap` | src/components/customizer/GloveModel.tsx:61-81 | an image zone the store holds no list for ends the finished chain with no map, when no call with images paints its material |
| `MaterialBinder.UnlistedZoneHasNoMap` | src/components/customizer/GloveModel.tsx:61-81 | the five zones called without a list end with no map, when their material is not shared with an image zone |
| `MaterialBinder.StepIsPatch` | src/components/customizer/GloveModel.tsx:29-57 | what a call writes, and whether it returns, does not depend on the materials it finds |
| `MaterialBinder.RunIsPatch` | src/components/customizer/GloveModel.tsx:61-81 | the whole chain writes a fixed patch determined by the scene, colours, images and loads |
| `MaterialBinder.BinderIdempotent` | src/components/customizer/GloveModel.tsx:22-85 | running the binder again on its own result changes nothing and finishes the same way |
| `Uploader.ClampScale` | src/components/customizer/ImageUploader.tsx:103 | the result lies in [0.1, 1.5], equals the value inside that range and the nearer bound outside it |
| `Uploader.FindImage` | src/components/customizer/ImageUploader.tsx:94 | `None` if and only if no image has the id; otherwise the first index with that id |
| `Uploader.SizeLimits` | src/components/customizer/ImageUploader.tsx:67-70 | the limits are 2097152 and 5242880 bytes; a file of exactly the limit is accepted, one byte more is refused |
| `Uploader.ThreeMegabytes` | src/components/customizer/ImageUploader.tsx:67-78 | a 3 MB image is refused with "Image exceeds 2MB limit" on mobile and goes to the upload elsewhere |
| `Uploader.ProcessOutcomes` | src/components/customizer/ImageUploader.tsx:66-87 | a refused file shows one error and adds nothing; an accepted one shows loading first; an image is added if and only if the URL is truthy, and then the last status is success; a falsy URL ends on "Upload failed"; a rejected reply leaves it loading |
| `Uploader.DropRefusals` | src/components/customizer/ImageUploader.tsx:53-59 | no file, a non-image type, or an upper-case "IMAGE/" type is refused with "Only image files are allowed" |
| `Uploader.EditChangesOneField` | src/components/customizer/ImageUploader.tsx:98-104 | only the named property changes; x, y and rotation are stored as given; a scale lands in [0.1, 1.5] and is kept inside it |
| `Uploader.EditIdempotent` | src/components/customizer/ImageUploader.tsx:98-104 | repeating the same edit changes nothing more |
| `Uploader.Store.AddCustomImage` | src/components/customizer/ImageUploader.tsx:82 | the store's images become `AddImage` of the old ones |
| `Uploader.Store.UpdateImageTransform` | src/components/customizer/ImageUploader.tsx:106 | the store's images become `UpdateTransform` of the old ones |
| `Uploader.ImageUploader.constructor` | src/components/customizer/ImageUploader.tsx:31-36 | the selected zone starts at "OutterPalm", with no status |
| `Uploader.ImageUploader.SelectZone` | src/components/customizer/ImageUploader.tsx:147-157 | only an offered zone can be selected; the status is unchanged |
| `Uploader.ImageUploader.SetUploadStatus` | src/components/customizer/ImageUploader.tsx:33-36 | the shown status is the new one and is logged |
| `Uploader.ImageUploader.ProcessFile` | src/components/customizer/ImageUploader.tsx:66-87 | the statuses shown are `ProcessStatuses`; the file is uploaded exactly when within the limit, while "Uploading..." is shown; the store gains the URL of `ProcessAdds` in the selected zone, or is unchanged |
| `Uploader.ImageUploader.HandleDrop` | src/components/customizer/ImageUploader.tsx:49-63 | a non-image drop shows the error and changes nothing else; an image drop behaves as `processFile` |
| `Uploader.ImageUploader.HandleFileChange` | src/components/customizer/ImageUploader.tsx:43-47 | no file does nothing; a picked file goes to `processFile` with no type test |
| `Uploader.ImageUploader.HandleTransformChange` | src/components/customizer/ImageUploader.tsx:89-107 | when the id is found in the selected zone, that image's transform becomes the edited copy of it; otherwise the store is unchanged |

## Left out

- Rendering is out of scope. The model is the sequence of canvas commands.
  `clearRect` is kept as a command; like every paint, its effect on pixels
  is not modelled. Rasterisation and the conversion of rotation from degrees
  to radians are not modelled, nor are `textAlign` and `textBaseline`.
- Images are loaded by an oracle from URL to natural size (or failure).
  `crossOrigin` and the DOM image are not modelled.
- GenerateTextTexture requires a scale above zero. Every caller passes 0.7
  or 1.0; a zero scale would divide by zero at the background fill.
- Texture objects are values. `anisotropy = 16` and `minFilter` are
  renderer tuning and not modelled. The same texture object is not shared
  between materials.
- The GLTF scene is a map from mesh name to its material, or none. Loading
  it, the group transform and the `useFrame` whole-glove animation are not
  part of this model.
- ApplyMaterials performs the nine calls from lines 61-81 by a loop over
  `ZoneCalls`. `ZoneCalls` lists those calls with their colours and image
  lists, in that order.
- The effect re-runs `applyMaterials` when glove colours, images or the
  scene change. Runs that overlap in time are not modelled; each run is one
  sequential chain. Nothing handles the unawaited `applyMaterials()`
  rejection; it only ends the chain.
- UnlistedZoneHasNoMap needs the chain to finish, and the material not to be
  shared with an image zone. Otherwise a later call, or a rejection, can
  leave a map.
- The upload endpoint is a function from the file to its reply. The network
  request, the upload preset and the error logged to the console are not
  modelled.
- The store's own code is not part of this model. `customization.dfy` gives
  its record shapes and the two mutations the uploader calls. The fresh id
  of an added image is a parameter.
- The store's mutations are assumed, not modelled from its code: no
  store-side merge of the transform and no re-clamp of the scale against a
  device maximum is modelled.
- HandleTransformChange treats a selected zone missing from the store as
  "nothing to edit". The source would fail on reading `.find` of undefined.
  The store always holds the three offered zones, so this does not arise.
- The JSX is not modelled. That covers the drag highlight, the image list
  with its remove buttons (`removeCustomImage`), the sliders' ranges, and
  the help texts (which mention 1.5MB in one place and 2MB in another).
- The module-level `isMobile` (window width, line 22) only sets the slider
  maximum and is not modelled. The size limit uses the user-agent test at
  lines 38-41, which is a constant of the panel.
- ProcessFile keeps the ghost logs `statusLog` and `uploads`. They record
  every status shown, and every file sent together with the status on
  screen when it was sent, in order. The UI shows only the last status.
