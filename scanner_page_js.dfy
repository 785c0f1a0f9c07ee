/**
 * The scanner page's JavaScript variant. It differs from the TypeScript page
 * in three ways:
 *
 *  - Scan Now first probes the camera: it asks for a stream, stops every
 *    track at once, and only then sets `isInitiatingScan` and hides the UI.
 *  - A probe that fails shows a "camera is blocked" card with Try Again.
 *  - A photo can be uploaded instead; that shows a fixed mock result.
 *
 * The heading, the buttons and the globe sit behind `showUI`. A successful
 * probe hides them. Going back to the globe brings them back after 300 ms.
 */
module ScannerPageJs {
  import opened ScanTypes
  import opened Media
  import Camera

  datatype CameraPermission = Unknown | Granted | Denied

  /** The result shown for any uploaded file; no analysis takes place. */
  const UploadMock: ScanItem := ScanItem(
    "Uploaded Item", "📷", 120, 100, "₹", "₹80-120", 20,
    "Analysis based on uploaded image", "Local Market")

  /** The upload mock's 20 % is 120 over 100, rounded. */
  lemma {:induction false} UploadMockConsistent()
    ensures PercentConsistent(UploadMock)
  {
    PercentConsistentInIntegers(UploadMock);
  }

  class ScannerPage {
    var currentView: View
    var scanResult: Option<ScanItem>
    var userLocation: Option<Coordinate>
    var isScanning: bool
    var isInitiatingScan: bool
    var locationStatus: LocationStatus
    var cameraPermission: CameraPermission
    var showUI: bool
    /** Camera probes whose `getUserMedia` has not settled yet. */
    var pendingProbes: nat
    /** Pending 500 ms timers, each of which will set `isScanning`. */
    var scanStartTimers: nat
    /** Pending 300 ms timers, each of which will set `showUI`. */
    var showUITimers: nat

    ghost predicate Valid()
      reads this
    {
      && (locationStatus == ScanTypes.Loading <==> userLocation == None)
      && (currentView == ResultView ==> scanResult.Some?)
    }

    /** The globe and the Scan Now and Upload Photo buttons. */
    predicate GlobeShown()
      reads this
    {
      currentView == GlobeView && showUI
    }

    /** The "camera is blocked" card with Try Again and Upload Photo. */
    predicate BlockedCardShown()
      reads this
    {
      currentView == GlobeView && cameraPermission == CameraPermission.Denied
    }

    predicate CameraShown()
      reads this
    {
      currentView == CameraView
    }

    predicate ResultCardShown()
      reads this
    {
      currentView == ResultView && scanResult.Some?
    }

    constructor ()
      ensures Valid()
      ensures currentView == GlobeView && scanResult == None && userLocation == None
      ensures !isScanning && !isInitiatingScan && locationStatus == ScanTypes.Loading
      ensures cameraPermission == Unknown && showUI
      ensures pendingProbes == 0 && scanStartTimers == 0 && showUITimers == 0
    {
      currentView := GlobeView;
      scanResult := None;
      userLocation := None;
      isScanning := false;
      isInitiatingScan := false;
      locationStatus := ScanTypes.Loading;
      cameraPermission := Unknown;
      showUI := true;
      pendingProbes := 0;
      scanStartTimers := 0;
      showUITimers := 0;
    }

    /** The same geolocation effect as the TypeScript page. */
    method ResolveLocation(outcome: GeoOutcome)
      requires Valid() && locationStatus == ScanTypes.Loading
      modifies this`userLocation, this`locationStatus
      ensures Valid()
      ensures userLocation == Some(Geolocate(outcome).0)
      ensures locationStatus == Geolocate(outcome).1
    {
      var (coord, status) := Geolocate(outcome);
      userLocation := Some(coord);
      locationStatus := status;
    }

    /**
     * A press on Scan Now starts a camera probe unless the button is
     * disabled, which it is only once a probe has succeeded.
     */
    method PressScanNow()
      requires Valid()
      modifies this`pendingProbes
      ensures Valid()
      ensures pendingProbes == if old(isInitiatingScan) then old(pendingProbes) else old(pendingProbes) + 1
    {
      if !isInitiatingScan {
        pendingProbes := pendingProbes + 1;
      }
    }

    /**
     * A probe settles. With a stream, every one of its tracks is stopped
     * before anything else happens. Then the permission is granted,
     * `isInitiatingScan` is set and the globe's UI is hidden. Without a stream only the
     * permission changes, to denied.
     */
    method ProbeSettled(stream: MediaStream?)
      requires Valid() && pendingProbes > 0
      modifies this`pendingProbes, this`cameraPermission, this`isInitiatingScan, this`showUI
      modifies if stream != null then stream.TrackSet() else {}
      ensures Valid()
      ensures pendingProbes == old(pendingProbes) - 1
      ensures stream != null ==> (
        && stream.AllStopped()
        && cameraPermission == CameraPermission.Granted && isInitiatingScan && !showUI
        && !GlobeShown() && !BlockedCardShown())
      ensures stream == null ==> (
        && cameraPermission == CameraPermission.Denied
        && isInitiatingScan == old(isInitiatingScan) && showUI == old(showUI))
    {
      pendingProbes := pendingProbes - 1;
      if stream != null {
        StopAllTracks(stream);
        cameraPermission := CameraPermission.Granted;
        isInitiatingScan := true;
        showUI := false;
      } else {
        cameraPermission := CameraPermission.Denied;
      }
    }

    /** Try Again on the blocked card: the permission is forgotten and a new probe starts. */
    method TryAgain()
      requires Valid()
      modifies this`cameraPermission, this`pendingProbes
      ensures Valid()
      ensures cameraPermission == Unknown && !BlockedCardShown()
      ensures pendingProbes == old(pendingProbes) + 1
    {
      cameraPermission := Unknown;
      pendingProbes := pendingProbes + 1;
    }

    /**
     * The hidden file input changed. With a file the result card opens on the
     * upload mock; with none nothing changes.
     */
    method FileSelected(hasFile: bool)
      requires Valid()
      modifies this`scanResult, this`currentView
      ensures Valid()
      ensures hasFile ==> scanResult == Some(UploadMock) && ResultCardShown()
      ensures !hasFile ==> scanResult == old(scanResult) && currentView == old(currentView)
    {
      if hasFile {
        scanResult := Some(UploadMock);
        currentView := ResultView;
      }
    }

    method ZoomComplete()
      requires Valid()
      modifies this`currentView, this`scanStartTimers, this`isInitiatingScan
      ensures Valid()
      ensures CameraShown() && !isInitiatingScan
      ensures scanStartTimers == old(scanStartTimers) + 1
    {
      currentView := CameraView;
      scanStartTimers := scanStartTimers + 1;
      isInitiatingScan := false;
    }

    method ScanStartTimerFired()
      requires Valid() && scanStartTimers > 0
      modifies this`isScanning, this`scanStartTimers
      ensures Valid()
      ensures isScanning && scanStartTimers == old(scanStartTimers) - 1
    {
      isScanning := true;
      scanStartTimers := scanStartTimers - 1;
    }

    method ScanComplete(result: ScanItem)
      requires Valid()
      modifies this`scanResult, this`currentView, this`isScanning
      ensures Valid()
      ensures scanResult == Some(result) && ResultCardShown() && !isScanning
    {
      scanResult := Some(result);
      currentView := ResultView;
      isScanning := false;
    }

    /**
     * Back or close: the globe returns with the permission forgotten, and
     * the UI reappears only when the 300 ms timer fires.
     */
    method ResetToGlobe()
      requires Valid()
      modifies this`currentView, this`scanResult, this`isScanning, this`isInitiatingScan
      modifies this`cameraPermission, this`showUITimers
      ensures Valid()
      ensures currentView == GlobeView && scanResult == None && !isScanning && !isInitiatingScan
      ensures cameraPermission == Unknown && !BlockedCardShown()
      ensures showUITimers == old(showUITimers) + 1
    {
      currentView := GlobeView;
      scanResult := None;
      isScanning := false;
      isInitiatingScan := false;
      cameraPermission := Unknown;
      showUITimers := showUITimers + 1;
    }

    method ShowUITimerFired()
      requires Valid() && showUITimers > 0
      modifies this`showUI, this`showUITimers
      ensures Valid()
      ensures showUI && showUITimers == old(showUITimers) - 1
    {
      showUI := true;
      showUITimers := showUITimers - 1;
    }

    method ScanAgain()
      requires Valid()
      modifies this`currentView, this`scanResult, this`scanStartTimers
      ensures Valid()
      ensures CameraShown() && scanResult == None
      ensures scanStartTimers == old(scanStartTimers) + 1
    {
      currentView := CameraView;
      scanResult := None;
      scanStartTimers := scanStartTimers + 1;
    }
  }

  /**
   * A probe that succeeds releases the camera before the camera view asks
   * for it again. Every track of the probe's stream ends up stopped and the
   * permission ends up granted. After a failed first probe and Try Again,
   * the blocked card is gone.
   */
  method ProbeThenRetry() returns (permission: CameraPermission, camera: Track)
    ensures permission == CameraPermission.Granted && camera.stopped
  {
    camera := new Track("video", "camera");
    var probe := new MediaStream([camera]);
    var page := new ScannerPage();
    page.PressScanNow();
    page.ProbeSettled(null);
    assert page.BlockedCardShown();
    page.TryAgain();
    assert !page.BlockedCardShown();
    page.ProbeSettled(probe);
    assert probe.tracks[0] == camera;
    permission := page.cameraPermission;
  }

  /**
   * The camera is reached without the globe: an upload shows its result,
   * "Scan Another Item" opens the camera, and the camera becomes ready while
   * scanning, so a capture is scheduled. The user presses Back and the page
   * shows the globe again. The capture still reports its result, and the
   * page leaves the globe for the result card.
   */
  method UploadThenStaleCapture() returns (wasOnGlobe: bool, cardShown: bool, globeShown: bool)
    ensures wasOnGlobe && cardShown && !globeShown
  {
    var page := new ScannerPage();
    page.FileSelected(true);
    page.ScanAgain();
    page.ScanStartTimerFired();
    var camera := Camera.FirstAttemptPlays();
    camera.AutoScanEffect(page.isScanning);
    page.ResetToGlobe();
    wasOnGlobe := page.GlobeShown();
    var reported := camera.PhotoTimerFired();
    page.ScanComplete(reported.value);
    cardShown, globeShown := page.ResultCardShown(), page.GlobeShown();
  }
}
