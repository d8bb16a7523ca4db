# PreviewActivity camera lifecycle, in Dafny

This project models the control logic of `PreviewActivity`, the Android
activity of the barcode scanner that shows the live camera preview. The
activity holds at most one camera source. Its lifecycle callbacks decide when
that source is created, started, stopped and released. Creation is gated by
runtime permission checks against the permissions the package manifest
declares. Two buttons toggle the flash of the held source.

Files:

- `wrappers.dfy` — `Option`, standing for a Java reference that may be null.
- `permissions.dfy` — module `Permissions`: how the manifest lookup is read
  (`getRequiredPermissions`), the all-granted check (`allPermissionsGranted`),
  and the list of ungranted permissions that `getRuntimePermissions` requests.
  `Missing` is the reference definition of that list, and lemmas give its exact
  contents, its order and when it is empty.
- `preview.dfy` — module `Preview`: the camera handle `Camera`, the format
  choice, the flash label, and class `PreviewActivity` with one method per
  callback and per click handler. `Valid()` is the invariant every callback
  keeps:
  - before `onDestroy`, every source ever created is either held or released,
    never both;
  - after `onDestroy` every source has been released, though the field may
    still name the last one;
  - no source is released twice;
  - the held source carries the frame processor for the chosen format.
- `scenarios.dfy` — module `Scenarios`: callback sequences the host can
  deliver, checked against the method contracts alone. They cover
  grant-then-resume, request-then-grant, denial, a failed start, and the flash
  buttons.

How collaborators are represented:

- The package manager's answer is a `PackageLookup`: either the lookup threw, or
  it returned an array that may be null.
- The operating system's per-permission check is a predicate
  `granted: string -> bool`. Each callback that checks grants takes it as a
  parameter, because grants can change between callbacks.
- Whether `CameraSourcePreview.start` throws `IOException` is the parameter
  `startFails`.
- A camera source is a value with a creation number `id`. Calls into the
  collaborators are logged in fields:
  - `released`: ids passed to `release()`;
  - `started`: ids for which `preview.start` returned normally;
  - `stopCount`: number of `preview.stop()` calls;
  - `permissionRequests`: batches passed to `requestPermissions`;
  - `processorInstalls`: number of `setMachineLearningFrameProcessor` calls.
- The flash buttons are two fields: `flashButtonsVisible`, and `flashLabel`
  for the text of the setFlash button.

Behaviour of the code that the model keeps, though a reader might expect
otherwise:

- `onRequestPermissionsResult` creates the source but does not start it. Only
  `onResume` starts it.
- It re-checks the current grants. It does not read `grantResults`.
- After a failed start the field is null. No later `onResume` creates a new
  source. Only `onCreate` and the permission result call `createCameraSource`.
- After a failed start the flash UI is not refreshed. The buttons keep the
  visibility they had, although no source is held. `FailedStartIsNotRetried`
  shows this. `FlashUiMatchesSource` holds after `createCameraSource` and
  after each click on a held source, not after every callback.
- `createCameraSource` installs a new frame processor even when a source
  already exists. The handle itself is kept. The count of installs is the
  field `processorInstalls`.
- `onDestroy` releases the source but does not clear the field. The ghost
  flag `destroyed` records that the host sends no callback, and delivers no
  button click, afterwards. Every callback and both click handlers require
  `!destroyed`, and that is what makes "never released
  twice" hold across all callback sequences.
- There is no guard against a second outstanding permission request and no
  suppression of a second scan result. Neither is modelled as present.

## Model

| member | source | states |
|---|---|---|
| Permissions.RequiredPermissions | app/src/main/java/fibamlscan/app/PreviewActivity.java:171-185 | a failed lookup or a null array yields no permissions; otherwise exactly the declared array |
| Permissions.AllPermissionsGranted | app/src/main/java/fibamlscan/app/PreviewActivity.java:187-194 | returns true iff every required permission is granted |
| Permissions.NeededPermissions | app/src/main/java/fibamlscan/app/PreviewActivity.java:196-202 | the loop builds exactly `Missing` of the required permissions |
| Permissions.GetRuntimePermissions | app/src/main/java/fibamlscan/app/PreviewActivity.java:196-208 | no request iff all are granted; otherwise one request holding exactly the missing permissions, never empty |
| Permissions.MissingCount | app/src/main/java/fibamlscan/app/PreviewActivity.java:197-202 | a granted permission never appears in the request; an ungranted one appears as often as in the manifest |
| Permissions.MissingMembership | app/src/main/java/fibamlscan/app/PreviewActivity.java:197-202 | a permission is requested iff it is required and not granted |
| Permissions.MissingIsSubsequence | app/src/main/java/fibamlscan/app/PreviewActivity.java:197-202 | the request keeps the manifest's order |
| Permissions.MissingEmptyIffAllGranted | app/src/main/java/fibamlscan/app/PreviewActivity.java:187-208 | the ungranted list is empty iff the all-granted check passes |
| Permissions.UnreadableManifestNeedsNothing | app/src/main/java/fibamlscan/app/PreviewActivity.java:171-194 | an unreadable, null or empty manifest passes the grant check and requests nothing |
| Preview.ChosenFormat | app/src/main/java/fibamlscan/app/PreviewActivity.java:117-120 | the format is the intent's extra when present, otherwise all formats |
| Preview.FlashLabel | app/src/main/java/fibamlscan/app/PreviewActivity.java:104-107 | the label is "Turn flashlight off" exactly when the flash is on, and "Turn flashlight on" exactly when it is off |
| Preview.PreviewActivity.constructor | app/src/main/java/fibamlscan/app/PreviewActivity.java:47 | the activity starts with no camera source, nothing created, released, started or requested |
| Preview.PreviewActivity.UpdateFlashUi | app/src/main/java/fibamlscan/app/PreviewActivity.java:97-109 | button visibility equals "source held"; with a source, the label follows its flash state; without one, the label is untouched |
| Preview.PreviewActivity.CreateCameraSource | app/src/main/java/fibamlscan/app/PreviewActivity.java:111-130 | a held source is kept (no creation); otherwise exactly one new source with a fresh id and the chosen format; a frame processor is installed on every call; afterwards a source is always held and the flash UI matches it |
| Preview.PreviewActivity.StartCameraSource | app/src/main/java/fibamlscan/app/PreviewActivity.java:137-147 | no-op without a source; a started source was never released; on success the same source is started and kept; on failure exactly that source is released once and the field cleared; nothing is ever created |
| Preview.PreviewActivity.OnCreate | app/src/main/java/fibamlscan/app/PreviewActivity.java:90-94 | all granted: the source is created, no request; otherwise one non-empty request of the missing permissions and the source is unchanged |
| Preview.PreviewActivity.GetRuntimePermissions | app/src/main/java/fibamlscan/app/PreviewActivity.java:196-208 | records the request of the missing permissions only when some are missing |
| Preview.PreviewActivity.OnRequestPermissionsResult | app/src/main/java/fibamlscan/app/PreviewActivity.java:210-218 | creates the source iff the current grants all pass, independent of the reported results; never starts it and never requests |
| Preview.PreviewActivity.OnResume | app/src/main/java/fibamlscan/app/PreviewActivity.java:149-154 | attempts a start of the held source, as StartCameraSource; never creates a source |
| Preview.PreviewActivity.OnPause | app/src/main/java/fibamlscan/app/PreviewActivity.java:156-161 | stops the preview once and changes nothing else, the source included |
| Preview.PreviewActivity.OnDestroy | app/src/main/java/fibamlscan/app/PreviewActivity.java:163-169 | releases the held source iff there is one, exactly once; afterwards every created source has been released |
| Preview.PreviewActivity.ToggleFlashClicked | app/src/main/java/fibamlscan/app/PreviewActivity.java:72-79 | no-op without a source; otherwise inverts the held source's flash and the flash UI matches it |
| Preview.PreviewActivity.SetFlashClicked | app/src/main/java/fibamlscan/app/PreviewActivity.java:81-88 | no-op without a source; otherwise sets the flash to the negation of its current value and the flash UI matches it |

## Left out

- View wiring (`setContentView`, `findViewById`, click-listener registration) is left out. So are the Android button objects. Visibility and label are plain fields, and the layout's initial values are constructor parameters.
- `getStartingIntent` and the scan-result callback (`setResult`, `finish`) are left out. They are host I/O. Only the format chosen from the intent is modelled.
- The internals of `CameraSource`, `CameraSourcePreview`, `GraphicOverlay`, `BarcodeScanningProcessor` and `BarcodeType` are not part of this model. A new source is assumed to have its flash off. `toggleFlash` is assumed to invert the flash. `BarcodeType.ALL_FORMATS.type` is taken as 0, ML Kit's all-formats code. Whether the preview runs after a failed start is not tracked; only successful starts are logged.
- The package manager, `ContextCompat.checkSelfPermission` and the permission dialog are foreign calls. They are replaced by `PackageLookup` and the `granted` predicate. The dialog's asynchrony is represented only by the order in which callbacks are called.
- The request code passed to `requestPermissions` (constant 1) is not recorded.
- Logging is left out.
- The Android lifecycle order is not enforced by the model. For example, `onPause` before `onCreate` would hit a null `preview` in the code. Only "no callback after `onDestroy`" is required.
