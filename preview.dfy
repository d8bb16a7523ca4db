/**
 * PreviewActivity: the lifecycle callbacks that create, start, stop and release
 * the optional camera source, gated by the permission checks, and the two
 * flash buttons.
 *
 * The camera source is an opaque handle: a value carrying the identity the
 * activity gave it at creation, its flash state and the barcode format of the
 * frame processor installed on it. Calls into the camera preview and into the
 * operating system are recorded in logs (`released`, `started`, `stopCount`,
 * `permissionRequests`) so that contracts can speak about them.
 */
module Preview {
  import opened Wrappers
  import opened Permissions

  /** Intent extra key for the barcode format (PreviewActivity.java:43). */
  const ExtraBarcodeFormat: string := "EXTRA_BARCODE_FORMAT"

  /** BarcodeType.ALL_FORMATS.type; ML Kit's "all formats" code. */
  const AllFormats: int := 0

  const FlashOffLabel: string := "Turn flashlight off"
  const FlashOnLabel: string := "Turn flashlight on"

  /** The starting intent: only its integer extras matter here. */
  datatype Intent = Intent(intExtras: map<string, int>)

  /**
   * A camera source handle. `id` is its creation number, so two creations
   * never share one; `processorFormat` is the format of the installed frame
   * processor, if any.
   */
  datatype Camera = Camera(id: nat, flash: bool, processorFormat: Option<int>)
  {
    function GetFlash(): bool { flash }

    /** CameraSource.toggleFlash, taken to invert the flash. */
    function ToggleFlash(): Camera
    {
      this.(flash := !flash)
    }

    function SetFlash(on: bool): Camera
    {
      this.(flash := on)
    }
  }

  /** The barcode format handed to the frame processor: the intent's extra, or all formats. */
  function ChosenFormat(intent: Option<Intent>): (format: int)
    ensures intent.Some? && ExtraBarcodeFormat in intent.value.intExtras ==>
              format == intent.value.intExtras[ExtraBarcodeFormat]
    ensures intent.None? || ExtraBarcodeFormat !in intent.value.intExtras ==> format == AllFormats
  {
    if intent.Some? && ExtraBarcodeFormat in intent.value.intExtras
    then intent.value.intExtras[ExtraBarcodeFormat]
    else AllFormats
  }

  /** Text of the setFlash button for a given flash state. */
  function FlashLabel(flashOn: bool): (text: string)
    ensures text == FlashOffLabel <==> flashOn
    ensures text == FlashOnLabel <==> !flashOn
  {
    if flashOn then FlashOffLabel else FlashOnLabel
  }

  predicate NoDuplicates(s: seq<nat>) {
    forall i, j :: 0 <= i < j < |s| ==> s[i] != s[j]
  }

  class PreviewActivity {
    /** What the package manager reports for this package. */
    const manifest: PackageLookup
    /** getIntent(): None when the activity has no intent. */
    const intent: Option<Intent>

    var cameraSource: Option<Camera>
    /** Number of CameraSource objects constructed so far; the next one gets this id. */
    var created: nat
    /** Number of setMachineLearningFrameProcessor calls. */
    var processorInstalls: nat
    /** Ids passed to CameraSource.release, in call order. */
    var released: seq<nat>
    /** Ids passed to CameraSourcePreview.start that returned normally, in call order. */
    var started: seq<nat>
    /** Number of CameraSourcePreview.stop calls. */
    var stopCount: nat
    /** Batches passed to ActivityCompat.requestPermissions, in call order. */
    var permissionRequests: seq<seq<string>>
    /** Visibility of both flash buttons, and the setFlash button's text. */
    var flashButtonsVisible: bool
    var flashLabel: string
    /** onDestroy has run; the host sends no callback and no click after it. */
    ghost var destroyed: bool

    /** The source currently held has creation number `id`. */
    predicate Holds(id: nat)
      reads this
    {
      cameraSource.Some? && cameraSource.value.id == id
    }

    /**
     * Before onDestroy, every source ever created is either held or released,
     * never both; after onDestroy, all are released (the field may still name
     * one). Each is released at most once, and
     * a held source carries the processor for the chosen format.
     */
    ghost predicate Valid()
      reads this
    {
      NoDuplicates(released) &&
      (forall i :: 0 <= i < |released| ==> released[i] < created) &&
      (forall i :: 0 <= i < |started| ==> started[i] < created) &&
      (cameraSource.Some? ==>
        cameraSource.value.id < created &&
        cameraSource.value.processorFormat == Some(ChosenFormat(intent))) &&
      (forall id :: 0 <= id < created ==> (id in released <==> destroyed || !Holds(id)))
    }

    /** The flash buttons show exactly when a source is held, with the label of its flash state. */
    predicate FlashUiMatchesSource()
      reads this
    {
      flashButtonsVisible == cameraSource.Some? &&
      (cameraSource.Some? ==> flashLabel == FlashLabel(cameraSource.value.flash))
    }

    function Required(): seq<string> {
      RequiredPermissions(manifest)
    }

    /** A source just made by createCameraSource: flash off, processor for the chosen format. */
    function NewCamera(id: nat): Camera {
      Camera(id, false, Some(ChosenFormat(intent)))
    }

    /** The activity object before onCreate; the flash buttons are as the layout declares them. */
    constructor (manifest: PackageLookup, intent: Option<Intent>, layoutButtonsVisible: bool, layoutLabel: string)
      ensures Valid() && !destroyed
      ensures this.manifest == manifest && this.intent == intent
      ensures cameraSource.None? && created == 0 && processorInstalls == 0
      ensures released == [] && started == [] && stopCount == 0 && permissionRequests == []
      ensures flashButtonsVisible == layoutButtonsVisible && flashLabel == layoutLabel
    {
      this.manifest, this.intent := manifest, intent;
      cameraSource, created, processorInstalls := None, 0, 0;
      released, started, stopCount, permissionRequests := [], [], 0, [];
      flashButtonsVisible, flashLabel := layoutButtonsVisible, layoutLabel;
      destroyed := false;
    }

    /** updateFlashUi: hides both buttons without a source, else shows them and sets the label. */
    method UpdateFlashUi()
      modifies this`flashButtonsVisible, this`flashLabel
      ensures FlashUiMatchesSource()
      ensures cameraSource.None? ==> flashLabel == old(flashLabel)
    {
      if cameraSource.None? {
        flashButtonsVisible := false;
      } else {
        flashButtonsVisible := true;
        flashLabel := FlashLabel(cameraSource.value.GetFlash());
      }
    }

    /**
     * createCameraSource: constructs a source only when none is held, then
     * installs a processor for the chosen format and refreshes the flash UI.
     */
    method CreateCameraSource()
      requires Valid() && !destroyed
      modifies this
      ensures Valid() && !destroyed
      ensures cameraSource.Some?
      ensures old(cameraSource).None? ==>
                created == old(created) + 1 &&
                cameraSource == Some(NewCamera(old(created)))
      ensures old(cameraSource).Some? ==> created == old(created) && cameraSource == old(cameraSource)
      ensures processorInstalls == old(processorInstalls) + 1
      ensures FlashUiMatchesSource()
      ensures released == old(released) && started == old(started)
      ensures stopCount == old(stopCount) && permissionRequests == old(permissionRequests)
    {
      if cameraSource.None? {
        cameraSource := Some(Camera(created, false, None));
        created := created + 1;
      }
      var barcodeFormat := ChosenFormat(intent);
      cameraSource := Some(cameraSource.value.(processorFormat := Some(barcodeFormat)));
      processorInstalls := processorInstalls + 1;
      UpdateFlashUi();
    }

    /**
     * startCameraSource: nothing without a source; otherwise starts the
     * preview, and when that fails releases this source and forgets it.
     * `startFails` is whether CameraSourcePreview.start throws IOException.
     */
    method StartCameraSource(startFails: bool)
      requires Valid() && !destroyed
      modifies this
      ensures Valid() && !destroyed
      ensures old(cameraSource).Some? ==> old(cameraSource).value.id !in old(released)
      ensures old(cameraSource).None? ==>
                cameraSource.None? && started == old(started) && released == old(released)
      ensures old(cameraSource).Some? && !startFails ==>
                cameraSource == old(cameraSource) &&
                started == old(started) + [old(cameraSource).value.id] && released == old(released)
      ensures old(cameraSource).Some? && startFails ==>
                cameraSource.None? &&
                released == old(released) + [old(cameraSource).value.id] && started == old(started)
      ensures created == old(created) && stopCount == old(stopCount)
      ensures permissionRequests == old(permissionRequests) && processorInstalls == old(processorInstalls)
      ensures flashButtonsVisible == old(flashButtonsVisible) && flashLabel == old(flashLabel)
    {
      if cameraSource.Some? {
        var id := cameraSource.value.id;
        assert !Holds(id) <==> false;
        if !startFails {
          started := started + [id];
        } else {
          released := released + [id];
          cameraSource := None;
          forall k | 0 <= k < created
            ensures k in released <==> destroyed || !Holds(k)
          {
            assert k in released <==> k in old(released) || k == id;
          }
        }
      }
    }

    /** onCreate, after the view wiring: create the source when all permissions are granted, else ask for the missing ones. */
    method OnCreate(granted: string -> bool)
      requires Valid() && !destroyed
      modifies this
      ensures Valid() && !destroyed
      ensures AllGranted(Required(), granted) ==>
                cameraSource.Some? && FlashUiMatchesSource() &&
                permissionRequests == old(permissionRequests) &&
                (old(cameraSource).None? ==> created == old(created) + 1 && cameraSource == Some(NewCamera(old(created)))) &&
                (old(cameraSource).Some? ==> created == old(created) && cameraSource == old(cameraSource)) &&
                processorInstalls == old(processorInstalls) + 1
      ensures !AllGranted(Required(), granted) ==>
                processorInstalls == old(processorInstalls) &&
                permissionRequests == old(permissionRequests) + [Missing(Required(), granted)] &&
                Missing(Required(), granted) != [] &&
                cameraSource == old(cameraSource) && created == old(created) &&
                flashButtonsVisible == old(flashButtonsVisible) && flashLabel == old(flashLabel)
      ensures released == old(released) && started == old(started) && stopCount == old(stopCount)
    {
      var ok := AllPermissionsGranted(manifest, granted);
      if ok {
        CreateCameraSource();
      } else {
        MissingEmptyIffAllGranted(Required(), granted);
        GetRuntimePermissions(granted);
      }
    }

    /** getRuntimePermissions, with the request recorded in `permissionRequests`. */
    method GetRuntimePermissions(granted: string -> bool)
      modifies this`permissionRequests
      ensures AllGranted(Required(), granted) ==> permissionRequests == old(permissionRequests)
      ensures !AllGranted(Required(), granted) ==>
                permissionRequests == old(permissionRequests) + [Missing(Required(), granted)]
    {
      var request := Permissions.GetRuntimePermissions(manifest, granted);
      if request.Some? {
        permissionRequests := permissionRequests + [request.value];
      }
    }

    /**
     * onRequestPermissionsResult: re-checks the current grants (the reported
     * results are not read) and creates the source when all are granted.
     * It does not start the preview.
     */
    method OnRequestPermissionsResult(granted: string -> bool, requestCode: int,
                                      permissions: seq<string>, grantResults: seq<int>)
      requires Valid() && !destroyed
      modifies this
      ensures Valid() && !destroyed
      ensures AllGranted(Required(), granted) ==>
                cameraSource.Some? && FlashUiMatchesSource() &&
                (old(cameraSource).None? ==> created == old(created) + 1 && cameraSource == Some(NewCamera(old(created)))) &&
                (old(cameraSource).Some? ==> created == old(created) && cameraSource == old(cameraSource)) &&
                processorInstalls == old(processorInstalls) + 1
      ensures !AllGranted(Required(), granted) ==>
                processorInstalls == old(processorInstalls) &&
                cameraSource == old(cameraSource) && created == old(created) &&
                flashButtonsVisible == old(flashButtonsVisible) && flashLabel == old(flashLabel)
      ensures released == old(released) && started == old(started) && stopCount == old(stopCount)
      ensures permissionRequests == old(permissionRequests)
    {
      var ok := AllPermissionsGranted(manifest, granted);
      if ok {
        CreateCameraSource();
      }
    }

    /** onResume: try to start the held source; never creates one. */
    method OnResume(startFails: bool)
      requires Valid() && !destroyed
      modifies this
      ensures Valid() && !destroyed
      ensures created == old(created)
      ensures old(cameraSource).None? ==> cameraSource.None? && started == old(started) && released == old(released)
      ensures old(cameraSource).Some? && !startFails ==>
                cameraSource == old(cameraSource) &&
                started == old(started) + [old(cameraSource).value.id] && released == old(released)
      ensures old(cameraSource).Some? && startFails ==>
                cameraSource.None? &&
                released == old(released) + [old(cameraSource).value.id] && started == old(started)
      ensures stopCount == old(stopCount) && permissionRequests == old(permissionRequests)
      ensures flashButtonsVisible == old(flashButtonsVisible) && flashLabel == old(flashLabel)
      ensures processorInstalls == old(processorInstalls)
    {
      StartCameraSource(startFails);
    }

    /** onPause: stops the preview and keeps the source. */
    method OnPause()
      requires Valid() && !destroyed
      modifies this`stopCount
      ensures Valid() && !destroyed
      ensures stopCount == old(stopCount) + 1
    {
      stopCount := stopCount + 1;
    }

    /** onDestroy: releases the held source, if any; the field itself is left as it is. */
    method OnDestroy()
      requires Valid() && !destroyed
      modifies this
      ensures Valid() && destroyed
      ensures old(cameraSource).Some? ==> released == old(released) + [old(cameraSource).value.id]
      ensures old(cameraSource).None? ==> released == old(released)
      ensures forall id :: 0 <= id < created ==> id in released
      ensures cameraSource == old(cameraSource) && created == old(created) && started == old(started)
      ensures stopCount == old(stopCount) && permissionRequests == old(permissionRequests)
      ensures flashButtonsVisible == old(flashButtonsVisible) && flashLabel == old(flashLabel)
      ensures processorInstalls == old(processorInstalls)
    {
      if cameraSource.Some? {
        var id := cameraSource.value.id;
        assert id !in released;
        released := released + [id];
      }
      destroyed := true;
    }

    /** Click on the toggleFlash button: inverts the flash of the held source, if any. */
    method ToggleFlashClicked()
      requires Valid() && !destroyed
      modifies this
      ensures Valid() && !destroyed
      ensures old(cameraSource).None? ==>
                cameraSource.None? &&
                flashButtonsVisible == old(flashButtonsVisible) && flashLabel == old(flashLabel)
      ensures old(cameraSource).Some? ==>
                cameraSource == Some(old(cameraSource).value.(flash := !old(cameraSource).value.flash)) &&
                FlashUiMatchesSource()
      ensures created == old(created) && released == old(released) && started == old(started)
      ensures stopCount == old(stopCount) && permissionRequests == old(permissionRequests)
      ensures processorInstalls == old(processorInstalls)
    {
      if cameraSource.Some? {
        cameraSource := Some(cameraSource.value.ToggleFlash());
        UpdateFlashUi();
      }
    }

    /** Click on the setFlash button: sets the flash to the negation of what the source reports. */
    method SetFlashClicked()
      requires Valid() && !destroyed
      modifies this
      ensures Valid() && !destroyed
      ensures old(cameraSource).None? ==>
                cameraSource.None? &&
                flashButtonsVisible == old(flashButtonsVisible) && flashLabel == old(flashLabel)
      ensures old(cameraSource).Some? ==>
                cameraSource == Some(old(cameraSource).value.(flash := !old(cameraSource).value.flash)) &&
                FlashUiMatchesSource()
      ensures created == old(created) && released == old(released) && started == old(started)
      ensures stopCount == old(stopCount) && permissionRequests == old(permissionRequests)
      ensures processorInstalls == old(processorInstalls)
    {
      if cameraSource.Some? {
        var c := cameraSource.value;
        cameraSource := Some(c.SetFlash(!c.GetFlash()));
        UpdateFlashUi();
      }
    }
  }
}
