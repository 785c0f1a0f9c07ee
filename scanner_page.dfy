/**
 * The scanner page (the TypeScript variant): a globe with a Scan Now
 * button, a camera view and a result card, switched by `currentView`.
 *
 * Each handler becomes a method on `ScannerPage`. A `setTimeout` the page
 * schedules is recorded as a pending timer, and the timer's firing is an
 * event method of its own. React batches the setters inside one handler,
 * so each method changes all of its fields at once.
 */
module ScannerPage {
  import opened ScanTypes
  import Camera

  /** The three items of the simulated scan, in the order the page lists them. */
  const Fixtures: seq<ScanItem> := [
    ScanItem("Veg Biryani Plate", "🥘", 180, 160, "₹", "₹140–₹180", 13,
             "This is what you'd pay at a local dhaba", "Mumbai"),
    ScanItem("Wooden Elephant Figurine", "🐘", 300, 150, "₹", "₹100–₹160", 100,
             "Slightly above market — maybe a touristy spot", "Jaipur"),
    ScanItem("Fresh Coconut Water", "🥥", 40, 35, "₹", "₹30–₹40", 14,
             "Vendors charge more during festivals", "Goa")
  ]

  /**
   * Every fixture's stored percentage is its detected price's excess over
   * its local price, rounded: 180/160 gives 13, 300/150 gives 100 and
   * 40/35 gives 14.
   */
  lemma {:induction false} FixturesConsistent()
    ensures |Fixtures| == 3
    ensures forall i :: 0 <= i < |Fixtures| ==> PercentConsistent(Fixtures[i])
  {
    PercentConsistentInIntegers(Fixtures[0]);
    PercentConsistentInIntegers(Fixtures[1]);
    PercentConsistentInIntegers(Fixtures[2]);
  }

  /**
   * The globe reads its zoom flag from the prop `zoom`, which defaults to
   * false. Its zoom controller starts a zoom only once that flag is set, and
   * reports zoom-complete only at the end of a zoom.
   */
  function GlobeZoom(props: map<string, bool>): bool
  {
    if "zoom" in props then props["zoom"] else false
  }

  /** The props the page hands the globe: the flag under the name `isZooming`. */
  function GlobePropsAsWritten(isInitiatingScan: bool): map<string, bool>
  {
    map["isZooming" := isInitiatingScan]
  }

  /** The intended props: the same flag under `zoom`, the name the globe reads. */
  function GlobeProps(isInitiatingScan: bool): (props: map<string, bool>)
    ensures GlobeZoom(props) <==> isInitiatingScan
  {
    map["zoom" := isInitiatingScan]
  }

  class ScannerPage {
    var currentView: View
    var scanResult: Option<ScanItem>
    var userLocation: Option<Coordinate>
    var isScanning: bool
    var isInitiatingScan: bool
    var locationStatus: LocationStatus
    /** Pending 500 ms timers, each of which will set `isScanning`. */
    var scanStartTimers: nat
    /** Pending 2000 ms timers of the simulated scan, with the item each will show. */
    var simulatedScans: seq<ScanItem>

    /**
     * A location is present exactly when the geolocation effect has settled,
     * and the result view is never current without a result.
     */
    ghost predicate Valid()
      reads this
    {
      && (locationStatus == Loading <==> userLocation == None)
      && (currentView == ResultView ==> scanResult.Some?)
    }

    /** The globe, with its heading, rings and Scan Now button. */
    predicate GlobeShown()
      reads this
    {
      currentView == GlobeView
    }

    /** The camera view, which receives `isScanning`. */
    predicate CameraShown()
      reads this
    {
      currentView == CameraView
    }

    /** The result card is rendered for the result view only when a result is stored. */
    predicate ResultCardShown()
      reads this
    {
      currentView == ResultView && scanResult.Some?
    }

    /** The globe is shown and the props it is handed ask it to zoom. */
    predicate GlobeZooming()
      reads this
    {
      GlobeShown() && GlobeZoom(GlobeProps(isInitiatingScan))
    }

    /** The Scan Now button is disabled, and reads "Locating...", while a scan is initiated. */
    predicate ScanButtonEnabled()
      reads this
    {
      !isInitiatingScan
    }

    /** The yellow "using default location" line under the heading. */
    predicate DefaultLocationNoticeShown()
      reads this
    {
      GlobeShown() && locationStatus == Denied
    }

    /** The initial render: the globe, nothing scanned, the location still loading. */
    constructor ()
      ensures Valid()
      ensures currentView == GlobeView && scanResult == None && userLocation == None
      ensures !isScanning && !isInitiatingScan && locationStatus == Loading
      ensures scanStartTimers == 0 && simulatedScans == []
    {
      currentView := GlobeView;
      scanResult := None;
      userLocation := None;
      isScanning := false;
      isInitiatingScan := false;
      locationStatus := Loading;
      scanStartTimers := 0;
      simulatedScans := [];
    }

    /**
     * The mount effect's geolocation request settles once: with the device
     * position, or with the fallback when the API is missing or fails.
     */
    method ResolveLocation(outcome: GeoOutcome)
      requires Valid() && locationStatus == Loading
      modifies this`userLocation, this`locationStatus
      ensures Valid()
      ensures userLocation == Some(Geolocate(outcome).0)
      ensures locationStatus == Geolocate(outcome).1
      ensures locationStatus == Denied ==> userLocation == Some(FallbackLocation)
    {
      var (coord, status) := Geolocate(outcome);
      userLocation := Some(coord);
      locationStatus := status;
    }

    /**
     * A press on Scan Now. The disabled button ignores presses while a scan
     * is initiated, so pressing twice is the same as pressing once.
     */
    method PressScanNow()
      requires Valid()
      modifies this`isInitiatingScan
      ensures Valid()
      ensures isInitiatingScan
      ensures !ScanButtonEnabled()
    {
      if ScanButtonEnabled() {
        isInitiatingScan := true;
      }
    }

    /**
     * The globe reports that its zoom finished, which only a zooming globe
     * does: the camera opens and a start timer is set.
     */
    method ZoomComplete()
      requires Valid() && GlobeZooming()
      modifies this`currentView, this`scanStartTimers, this`isInitiatingScan
      ensures Valid()
      ensures CameraShown() && !isInitiatingScan
      ensures scanStartTimers == old(scanStartTimers) + 1
    {
      currentView := CameraView;
      scanStartTimers := scanStartTimers + 1;
      isInitiatingScan := false;
    }

    /** One 500 ms timer fires; it sets `isScanning` whatever the view is by then. */
    method ScanStartTimerFired()
      requires Valid() && scanStartTimers > 0
      modifies this`isScanning, this`scanStartTimers
      ensures Valid()
      ensures isScanning && scanStartTimers == old(scanStartTimers) - 1
    {
      isScanning := true;
      scanStartTimers := scanStartTimers - 1;
    }

    /**
     * The camera view hands over a result. Its photo timer is not cleared on
     * unmount, so this can arrive in any view; the result card opens regardless.
     */
    method ScanComplete(result: ScanItem)
      requires Valid()
      modifies this`scanResult, this`currentView, this`isScanning
      ensures Valid()
      ensures scanResult == Some(result) && ResultCardShown() && !isScanning
    {
      scanResult := Some(result);
      currentView := ResultView;
      isScanning := false;
    }

    /**
     * The intended handling of a reported result: honoured only while the
     * camera view is current, ignored once the user has left it.
     */
    method ScanCompleteFromCamera(result: ScanItem)
      requires Valid()
      modifies this`scanResult, this`currentView, this`isScanning
      ensures Valid()
      ensures old(CameraShown()) ==> scanResult == Some(result) && ResultCardShown() && !isScanning
      ensures !old(CameraShown()) ==> (
        scanResult == old(scanResult) && currentView == old(currentView) && isScanning == old(isScanning))
    {
      if CameraShown() {
        ScanComplete(result);
      }
    }

    /** `simulateScan`: picks one fixture and schedules its 2000 ms timer. */
    method SimulateScan(pick: nat)
      requires Valid() && pick < |Fixtures|
      modifies this`simulatedScans
      ensures Valid()
      ensures simulatedScans == old(simulatedScans) + [Fixtures[pick]]
    {
      simulatedScans := simulatedScans + [Fixtures[pick]];
    }

    /** The simulated scan's timer fires and shows its fixture as the result. */
    method SimulatedScanFired(i: nat)
      requires Valid() && i < |simulatedScans|
      modifies this`scanResult, this`currentView, this`isScanning, this`simulatedScans
      ensures Valid()
      ensures scanResult == Some(old(simulatedScans[i])) && ResultCardShown() && !isScanning
      ensures simulatedScans == old(simulatedScans[..i] + simulatedScans[i + 1..])
    {
      scanResult := Some(simulatedScans[i]);
      currentView := ResultView;
      isScanning := false;
      simulatedScans := simulatedScans[..i] + simulatedScans[i + 1..];
    }

    /** Back from the camera or close on the result card: everything but the location resets. */
    method ResetToGlobe()
      requires Valid()
      modifies this`currentView, this`scanResult, this`isScanning, this`isInitiatingScan
      ensures Valid()
      ensures GlobeShown() && scanResult == None && !isScanning && !isInitiatingScan
      ensures ScanButtonEnabled()
    {
      currentView := GlobeView;
      scanResult := None;
      isScanning := false;
      isInitiatingScan := false;
    }

    /** Scan Again on the result card: back to the camera, with a new start timer. */
    method ScanAgain()
      requires Valid()
      modifies this`currentView, this`scanResult, this`scanStartTimers
      ensures Valid()
      ensures CameraShown() && scanResult == None
      ensures scanStartTimers == old(scanStartTimers) + 1
    {
      currentView := CameraView;
      scanResult := None;
      scanStartTimers := scanStartTimers + 1;
    }
  }

  /**
   * One pass through the page: press Scan Now, the zoom finishes, the start
   * timer fires, and the camera hands over `result`. The card then shows
   * exactly that result, the camera is no longer scanning, and the location
   * is the one the geolocation effect reported.
   */
  method ScanCycle(outcome: GeoOutcome, result: ScanItem)
    returns (shown: Option<ScanItem>, scanning: bool, location: Option<Coordinate>)
    ensures shown == Some(result) && !scanning
    ensures location == Some(Geolocate(outcome).0)
  {
    var page := new ScannerPage();
    page.ResolveLocation(outcome);
    page.PressScanNow();
    assert page.GlobeZooming();
    page.ZoomComplete();
    page.ScanStartTimerFired();
    assert page.CameraShown() && page.isScanning;
    page.ScanComplete(result);
    assert page.ResultCardShown();
    shown, scanning, location := page.scanResult, page.isScanning, page.userLocation;
  }

  /**
   * With the props as written, a press on Scan Now never leads on. The globe
   * is not asked to zoom, so it never reports zoom-complete. The page stays
   * on the globe with the button disabled.
   */
  method ScanNowStalls() returns (globeAskedToZoom: bool, buttonEnabled: bool, globeShown: bool)
    ensures !globeAskedToZoom && !buttonEnabled && globeShown
  {
    var page := new ScannerPage();
    page.PressScanNow();
    globeAskedToZoom := GlobeZoom(GlobePropsAsWritten(page.isInitiatingScan));
    buttonEnabled, globeShown := page.ScanButtonEnabled(), page.GlobeShown();
  }

  /**
   * The camera is ready and scanning, so a capture is scheduled; the user
   * presses Back before it fires. The capture still reports its result and
   * the page, already back on the globe, opens the result card.
   */
  method BackThenStaleCapture() returns (cardShown: bool, globeShown: bool)
    ensures cardShown && !globeShown
  {
    var page := new ScannerPage();
    page.PressScanNow();
    page.ZoomComplete();
    page.ScanStartTimerFired();
    var camera := Camera.FirstAttemptPlays();
    camera.AutoScanEffect(page.isScanning);
    page.ResetToGlobe();
    var reported := camera.PhotoTimerFired();
    page.ScanComplete(reported.value);
    cardShown, globeShown := page.ResultCardShown(), page.GlobeShown();
  }

  /** The same sequence with the guarded handler leaves the page on the globe. */
  method BackThenStaleCaptureGuarded() returns (cardShown: bool, globeShown: bool)
    ensures !cardShown && globeShown
  {
    var page := new ScannerPage();
    page.PressScanNow();
    page.ZoomComplete();
    page.ScanStartTimerFired();
    var camera := Camera.FirstAttemptPlays();
    camera.AutoScanEffect(page.isScanning);
    page.ResetToGlobe();
    var reported := camera.PhotoTimerFired();
    page.ScanCompleteFromCamera(reported.value);
    cardShown, globeShown := page.ResultCardShown(), page.GlobeShown();
  }
}
