/**
 * Callback sequences the host can deliver, with what the model says about
 * each. They use only the contracts of PreviewActivity's methods.
 */
module Scenarios {
  import opened Wrappers
  import opened Permissions
  import opened Preview

  const CameraPermission: string := "android.permission.CAMERA"

  /** The operating system's grant check when nothing, or everything, is granted. */
  predicate NoneGranted(p: string) { false }
  predicate AllGrantedNow(p: string) { true }

  /** Permissions already granted: create, start, stop, then restart the same source. */
  method GrantedResumePauseResume()
  {
    var a := new PreviewActivity(Found(Some([CameraPermission])), None, true, "");
    a.OnCreate(AllGrantedNow);
    assert a.created == 1 && a.permissionRequests == [];
    a.OnResume(false);
    a.OnPause();
    a.OnResume(false);
    assert a.created == 1 && a.started == [0, 0] && a.stopCount == 1;
    a.OnDestroy();
    assert a.released == [0];
  }

  /**
   * Camera not yet granted: onCreate asks for it; the first onResume finds no
   * source; the result callback creates one but only the next onResume starts it.
   */
  method PermissionRequestThenGrant()
  {
    var a := new PreviewActivity(Found(Some([CameraPermission])), None, true, "");
    assert a.Required() == [CameraPermission];
    a.OnCreate(NoneGranted);
    assert Missing([CameraPermission], NoneGranted) == [CameraPermission];
    assert a.cameraSource.None? && a.permissionRequests == [[CameraPermission]];
    a.OnResume(false);
    a.OnPause();
    a.OnRequestPermissionsResult(AllGrantedNow, 1, [CameraPermission], [0]);
    assert a.created == 1 && a.started == [];
    a.OnResume(false);
    assert a.started == [0];
  }

  /** Denied in the result callback: nothing is created and nothing is asked again. */
  method PermissionDenied()
  {
    var a := new PreviewActivity(Found(Some([CameraPermission])), None, true, "");
    assert a.Required() == [CameraPermission];
    assert !NoneGranted(CameraPermission);
    a.OnCreate(NoneGranted);
    assert Missing([CameraPermission], NoneGranted) == [CameraPermission];
    a.OnRequestPermissionsResult(NoneGranted, 1, [CameraPermission], [-1]);
    assert a.cameraSource.None? && a.created == 0 && a.permissionRequests == [[CameraPermission]];
  }

  /**
   * A failed start releases the source once; no later onResume creates a new
   * one, onDestroy releases nothing more, and the flash buttons are left as
   * they were.
   */
  method FailedStartIsNotRetried()
  {
    var a := new PreviewActivity(LookupFailed, Some(Intent(map[ExtraBarcodeFormat := 256])), false, "");
    assert a.Required() == [] && AllGranted(a.Required(), NoneGranted);
    assert ChosenFormat(a.intent) == 256;
    a.OnCreate(NoneGranted);
    assert a.cameraSource == Some(Camera(0, false, Some(256)));
    assert a.flashButtonsVisible;
    a.OnResume(true);
    assert a.cameraSource.None? && a.released == [0];
    assert a.flashButtonsVisible;
    a.OnPause();
    a.OnResume(false);
    assert a.created == 1 && a.started == [];
    a.ToggleFlashClicked();
    assert a.cameraSource.None?;
    a.OnDestroy();
    assert a.released == [0];
  }

  /** The two flash buttons invert the flash and keep the label in step. */
  method FlashButtons()
  {
    var a := new PreviewActivity(Found(None), None, false, "");
    assert a.Required() == [] && AllGranted(a.Required(), NoneGranted);
    a.OnCreate(NoneGranted);
    a.SetFlashClicked();
    assert a.cameraSource.value.flash && a.flashLabel == FlashOffLabel;
    a.ToggleFlashClicked();
    assert !a.cameraSource.value.flash && a.flashLabel == FlashOnLabel;
  }
}
