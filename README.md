# Vehicle photo capture session, modelled in Dafny

This project models the capture-session logic of a mobile app that guides a user
through photographing a vehicle from eleven fixed angles. The parts modelled are:

- the angle catalog (`constants/carAngles.ts`);
- the camera screen's state machine (`components/CameraCapture.tsx`): the default angle,
  manual selection, the re-entrancy guard around the camera call, what a finished call
  reports, the auto-advance to the next uncaptured angle, and the capture count that
  disables the shutter;
- two read-only views of the same state: the gallery grid (`components/GalleryGrid.tsx`)
  and the angle strip (`components/AngleStrip.tsx`).

Modules, one per file:

- `Wrappers` (`wrappers.dfy`): `Option`, with `GetOr` and `OrElse` (the `??` operator).
- `ArraySearch` (`array_search.dfy`): JavaScript's `findIndex` and `find` as recursive
  functions, with lemmas about the first match, concatenation and agreeing tests.
- `CarAngles` (`car_angles.dfy`): the catalog as a sequence `Catalog()` of eleven
  `CarAngle` records, and the id lookup `IndexOfId`. The entries are written as a table
  function `AngleAt` read through a sequence comprehension. The data are those of the
  `CAR_ANGLES` literal. The field `label` is called `labelText`, because `label` is a Dafny
  keyword.
- `CapturedImages` (`captured_images.dfy`): the parent's `Record<number, string | null>`
  as `map<int, string>`. An entry is captured when it is present and not empty: a
  JavaScript `null` is modelled as a missing key or `""`, and both are falsy. The module
  also defines `capturedCount` and `allCaptured`. `InitialCaptures` is the home screen's `initCapturedImages`
  (`app/(tabs)/index.tsx`, lines 17-21). Its contract states that the keys are exactly the catalog
  ids and that no id at all is captured, so the count is 0 and `allCaptured` is false. So it
  meets the requirement of `FirstCaptureScenario`, and `HomeScreenSessionAdvance` states the
  opening selection and the first advance for it.
- `CameraCapture` (`camera_capture.dfy`): the pure rules (`DefaultAngle`,
  `NextAfterCapture`, `CaptureEvents`, `ShutterDisabled`, `ScreenFor`). It also holds the
  class `CaptureController`, whose fields are the screen's `selectedAngle` and
  `isCapturing` state plus the selection and map that a pending `handleCapture` call
  closed over. Its invariant `Valid()` says that both selections are catalog angles. The
  constructor establishes it and every method keeps it. `SelectAngle` takes catalog angles
  only, because the strip hands it `CAR_ANGLES` entries (`components/AngleStrip.tsx:66`).
- `GalleryGrid` (`gallery_grid.dfy`) and `AngleStrip` (`angle_strip.dfy`): the header
  counts, the per-cell and per-item flags and badges, and the strip's scroll offset.

`handleCapture` is `async`, so it becomes two steps. `BeginCapture` runs up to the camera
call: it is a no-op without a camera or while a capture is in flight. Otherwise it raises
`isCapturing` and remembers the current selection and map. `CompleteCapture(result)` runs
after the call returns. The result is `Threw`, `NoUri` or `Uri(s)`. `CompleteCapture`
emits the `onCapture` call or the alert as an `Event` and moves the selection on. It
lowers `isCapturing` on every outcome. The auto-advance reads the map from before the
capture, as the source does. `AdvanceIgnoresCurrentEntry` proves this gives the same
answer as the updated map would.

Points where the code's behaviour is easy to misread:

- The count behind `allCaptured` counts every truthy value in the map, not only the
  catalog ids (`components/CameraCapture.tsx:128`). Statements that bound it by eleven
  assume a map keyed by catalog ids (`CatalogKeyed`).
- The shutter is disabled whenever `capturedCount === 11`
  (`components/CameraCapture.tsx:129`, `:226`), whichever angle is selected. Selecting
  an already captured angle does not enable it again. So the home screen's "Retake Photos"
  button (`app/(tabs)/index.tsx:106`) opens a camera that cannot take a photo
  (`ShutterDisabledIffComplete`, `CompleteSessionScenario`).
- Recording a capture and resetting the map are done by the parent screen, not by the
  capture screen. `onCapture` is modelled as an emitted event only.

## Model

| member | source | states |
|---|---|---|
| ArraySearch.FindIndex | components/CameraCapture.tsx:74 | the answer is -1 exactly when no element passes the test; otherwise the element at the answer passes and none before it does |
| ArraySearch.Find | components/CameraCapture.tsx:79-81 | nothing is found exactly when no element passes; a found value is an element that passes |
| ArraySearch.FindFirst | components/CameraCapture.tsx:34 | when position k is the first that passes, `find` answers the element at k and `findIndex` answers k |
| ArraySearch.FindAppend | components/CameraCapture.tsx:83 | searching `a + b` gives the search of `a`, or else the search of `b` |
| ArraySearch.FindAfterOrFromStart | components/CameraCapture.tsx:75-83 | `s.slice(k).find(p) ?? s.find(p)` answers an element of `s` that passes, and answers nothing only when no element of `s` passes |
| ArraySearch.FindAgree | components/CameraCapture.tsx:76-80 | two tests that agree on every element find the same element |
| CarAngles.Catalog | constants/carAngles.ts:9-87 | the `CAR_ANGLES` array, the eleven entries in source order; it has `REQUIRED_ANGLES` (11) entries |
| CarAngles.CatalogLayout | constants/carAngles.ts:9-87 | the catalog has 11 entries and the entry at position i has id i + 1 |
| CarAngles.IdsDistinct | constants/carAngles.ts:11-81 | no two entries share an id |
| CarAngles.LabelsPresent | constants/carAngles.ts:12-83 | every entry has a non-empty label and short label; the first is "Front" and the last "Odometer" |
| CarAngles.IndexOfId | components/CameraCapture.tsx:74 | `findIndex` by id answers id - 1 for ids 1..11 and -1 for every other id |
| CarAngles.CatalogEntryById | constants/carAngles.ts:9-87 | a catalog entry has an id in 1..11 and sits at position id - 1 |
| CarAngles.CatalogIdsSize | constants/carAngles.ts:11-81 | the set of catalog ids has exactly 11 members, the integers 1 to 11 |
| CapturedImages.Captured | components/GalleryGrid.tsx:44-45 | `!!capturedImages[id]`: the key is present and its uri is not empty (a missing key, `null` and `""` are all falsy) |
| CapturedImages.CapturedCount | components/CameraCapture.tsx:128 | `Object.values(m).filter(Boolean).length`: the number of keys with a truthy value, at most the map size, and 0 exactly when no entry is truthy |
| CapturedImages.CountWithinCatalog | components/CameraCapture.tsx:128-129 | over a map keyed by catalog ids the count is at most 11, and `allCaptured` holds exactly when every catalog angle is captured |
| CapturedImages.AllCaptured | components/CameraCapture.tsx:129 | `capturedCount === 11` |
| CameraCapture.DefaultAngle | components/CameraCapture.tsx:34 | the default is a catalog angle; if it is captured, then every angle is captured and the default is the first angle |
| CameraCapture.DefaultIsFirstUncaptured | components/CameraCapture.tsx:34 | the default is the first uncaptured angle in catalog order |
| CameraCapture.DefaultWhenAllCaptured | components/CameraCapture.tsx:34 | with all angles captured the default is the first catalog angle |
| CameraCapture.NextAfterCapture | components/CameraCapture.tsx:74-86 | an advance target is a catalog angle that is uncaptured and not the current one; there is none exactly when every other angle is captured |
| CameraCapture.AdvanceForward | components/CameraCapture.tsx:74-85 | if an eligible angle lies after the current position, the advance picks the first such angle |
| CameraCapture.AdvanceWrap | components/CameraCapture.tsx:79-85 | if no eligible angle lies after the current position, the advance picks the first eligible angle from the start |
| CameraCapture.AdvanceIsCyclicScan | components/CameraCapture.tsx:74-83 | the two scans equal one scan in cyclic order, from just after the current angle round to it |
| CameraCapture.AdvanceIgnoresCurrentEntry | components/CameraCapture.tsx:70-81 | recording the new photo for the current angle does not change the advance, so reading the old map is harmless |
| CameraCapture.CaptureEvents | components/CameraCapture.tsx:70-89 | `onCapture` is emitted once, with the capture's angle id and the uri, exactly when the uri is truthy; an alert exactly when the call threw; nothing otherwise |
| CameraCapture.ShutterDisabled | components/CameraCapture.tsx:171-173 | the shutter button's `disabled` flag: a capture is in flight or `allCaptured` holds |
| CameraCapture.ShutterDisabledIffComplete | components/CameraCapture.tsx:224-226 | over a map keyed by catalog ids, the shutter is disabled exactly when a capture is in flight or all 11 angles are captured, whichever angle is selected |
| CameraCapture.ScreenFor | components/CameraCapture.tsx:102-126 | the camera is rendered exactly when permission is granted; the requesting screen exactly while it is unknown |
| CameraCapture.RequestsPermissionOnMount | components/CameraCapture.tsx:96-100 | the mount effect asks for permission exactly when the camera screen is not shown |
| CameraCapture.CaptureController.constructor | components/CameraCapture.tsx:34-36 | on mount the default angle is selected, no capture is in flight, and the invariant holds |
| CameraCapture.CaptureController.SelectAngle | components/CameraCapture.tsx:42-44 | the selection becomes the given catalog angle whether or not it is captured, nothing else changes, and the invariant is kept |
| CameraCapture.CaptureController.BeginCapture | components/CameraCapture.tsx:59-61 | the capture starts exactly when there is a camera and none is in flight; it then raises the guard and remembers the selection and map; otherwise nothing changes; the invariant is kept |
| CameraCapture.CaptureController.PressShutter | components/CameraCapture.tsx:223-226 | a press starts a capture exactly when there is a camera and the shutter is not disabled, with the effect of `BeginCapture`; the invariant is kept |
| CameraCapture.CaptureController.CompleteCapture | components/CameraCapture.tsx:64-92 | the guard is lowered on every outcome; the events are those of `CaptureEvents` for the remembered angle; on a truthy uri the selection moves to the advance target over the remembered map, if there is one, and otherwise it is unchanged; the invariant is kept |
| CameraCapture.FreshSessionAdvance | components/CameraCapture.tsx:74-77 | with nothing captured the default is angle 1 and capturing it advances to angle 2 |
| CameraCapture.HomeScreenSessionAdvance | components/CameraCapture.tsx:34-77 | from the home screen's initial map the camera opens on Front, and the first photo moves the selection to Front Left |
| CameraCapture.FirstCaptureScenario | components/CameraCapture.tsx:59-86 | on a fresh session a press on the shutter and a photo report angle 1 with the uri and leave angle 2 selected |
| CameraCapture.LastRemainingScenario | components/CameraCapture.tsx:74-77 | with angles 1 to 10 captured and angle 10 current, the advance goes to angle 11 |
| CameraCapture.CompleteSessionScenario | components/CameraCapture.tsx:84-86 | with all 11 captured and angle 11 current, there is no advance and the idle shutter is disabled |
| GalleryGrid.HeaderStats | components/GalleryGrid.tsx:19-36 | the header shows the count of truthy captures, the total 11, and a remaining count that adds up with the count to the total |
| GalleryGrid.RemainingWithinRange | components/GalleryGrid.tsx:31 | over a map keyed by catalog ids remaining lies in 0..11; it is 0 exactly when all are captured and 11 exactly when none is |
| GalleryGrid.CellFor | components/GalleryGrid.tsx:43-83 | the map callback's cell: the angle's id and short label, index badge index + 1, check badge exactly when the capture is truthy, the photo with its uri then and the angle's icon otherwise |
| GalleryGrid.CellsFrom | components/GalleryGrid.tsx:43-84 | one cell per angle, in order, the cell at position i rendered for the angle at i with index start + i |
| GalleryGrid.Grid | components/GalleryGrid.tsx:43-77 | 11 cells in catalog order with ids and badges 1..11; a cell shows its photo and check badge exactly when its capture is truthy, and the angle's icon otherwise |
| AngleStrip.ScrollRequest | components/AngleStrip.tsx:29-38 | no scroll for an id outside the catalog or without a scroll view; otherwise x = (id - 1) * 70 in portrait and y = (id - 1) * 78 in landscape, the other coordinate 0 |
| AngleStrip.ItemFor | components/AngleStrip.tsx:52-102 | the map callback's item: it hands over the angle when tapped, number badge index + 1, selected exactly when the ids match, captured with a check badge and the photo's uri exactly when the capture is truthy, otherwise the angle's icon, highlighted exactly when selected |
| AngleStrip.ItemsFrom | components/AngleStrip.tsx:52-103 | one item per angle, in order, the item at position i rendered for the angle at i with index start + i |
| AngleStrip.Strip | components/AngleStrip.tsx:52-93 | 11 items in catalog order numbered 1..11; an item is selected exactly when its id is the selected id, captured exactly when its capture is truthy, and then it shows the thumbnail of that uri and the check badge; otherwise it shows the angle's icon, highlighted exactly when the item is selected |
| AngleStrip.OneSelectedItem | components/AngleStrip.tsx:53 | at most one item is selected, and exactly one when the selected id is a catalog id |
| AngleStrip.TapSelectsItem | components/AngleStrip.tsx:30-66 | tapping item i selects catalog angle i; after that only item i is marked selected and the strip scrolls to position i |

## Left out

- The camera call `takePictureAsync` and its options (`quality: 0.85`, `skipProcessing: false`) are foreign code with a floating-point argument. Only its three outcomes are modelled: it threw, it gave no uri, it gave a uri.
- The existence of the camera (`cameraRef.current`) is the `hasCamera` parameter. Only the camera screen mounts a camera (`ScreenFor`), but the model does not tie the two together.
- The permission hook `useCameraPermissions` and `requestPermission` are foreign. The permission is a three-valued input; the "Grant Permission" and "Go Back" buttons are not modelled.
- The parent's storage of captures (`handleCapture` with the spread update, `handleReset`) and the progress fraction `capturedCount / 11` of the home screen are not part of this model. `onCapture` is an emitted event, so the model states nothing about overwrite or retake semantics.
- A selection change while the camera call is pending is modelled only as far as the source fixes it. The reported id and the advance use the selection from when the capture began. Without an advance target, the selection stays whatever it is at that point.
- React's state updates are modelled as immediate field writes. Two presses handled within one render would both read a stale `isCapturing === false` in the source; the model's guard does not capture that interleaving. React reactivity, re-rendering, `useCallback`/`useRef` identity and effect dependencies are left out too, except that the default angle is chosen once, at mount.
- ShutterDisabledIffComplete: over a map with keys outside the catalog, the source's count can reach 11 while a catalog angle is still uncaptured. This statement and the eleven-bound lemmas assume catalog keys (`CatalogKeyed`), as the parent's map has.
- The shutter flash and press animations, the orientation choice from `width > height`, safe-area insets, the status bar and all styles are presentation only and are left out.
- The overlay image of each angle (`overlayAsset`, `components/AngleOverlay.tsx`) only renders an asset, so it has no logic to model. The `animated: true` flag of `scrollTo` is left out as well.
- The gallery's unused `onStartCapture` prop and the camera screen's `Done` and close buttons, which only call the parent's `onClose`, are left out.
