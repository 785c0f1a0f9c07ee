/**
 * The landing page's hero: a globe with a Scan Now button that zooms into
 * the globe and then swaps it for the camera. A window event
 * `fairlo:start-scan` starts the same zoom from anywhere in the app, for as
 * long as the hero is mounted.
 */
module Landing {

  datatype Mode = Globe | Zooming | Camera

  /** The window event other parts of the app dispatch to start a scan. */
  const StartScanEventName: string := "fairlo:start-scan"

  class HeroGlobe {
    var mode: Mode
    /** Whether the effect's window listener is registered. */
    var listening: bool

    /** The camera view replaces the globe layer in camera mode. */
    predicate ShowsCamera()
      reads this
    {
      mode == Camera
    }

    /** The globe layer, rendered in every other mode. */
    predicate ShowsGlobe()
      reads this
    {
      mode != Camera
    }

    /** The globe's `zoom` prop. */
    predicate GlobeZoom()
      reads this
    {
      mode == Zooming
    }

    /** The Scan Now call to action sits under the globe and goes away with it. */
    predicate ShowsCta()
      reads this
    {
      mode != Camera
    }

    /** Mounting renders the globe and registers the window listener. */
    constructor Mount()
      ensures mode == Globe && listening
      ensures ShowsGlobe() && ShowsCta() && !GlobeZoom()
    {
      mode := Globe;
      listening := true;
    }

    /** `startScan`, the call to action's click handler. */
    method StartScan()
      requires ShowsCta()
      modifies this`mode
      ensures mode == Zooming && GlobeZoom() && ShowsGlobe()
    {
      mode := Zooming;
    }

    /**
     * A `fairlo:start-scan` event. While the listener is registered it moves
     * to zooming from any mode, camera included, which unmounts the camera
     * view and brings the globe back. After unmount it changes nothing.
     */
    method DispatchStartScan()
      modifies this`mode
      ensures listening ==> mode == Zooming && ShowsGlobe() && !ShowsCamera()
      ensures !listening ==> mode == old(mode)
    {
      if listening {
        mode := Zooming;
      }
    }

    /** The globe reports the end of its zoom, which runs only while `zoom` is set. */
    method ZoomComplete()
      requires GlobeZoom()
      modifies this`mode
      ensures mode == Camera && ShowsCamera() && !ShowsGlobe() && !ShowsCta()
    {
      mode := Camera;
    }

    /** Unmounting removes the window listener. */
    method Unmount()
      modifies this`listening
      ensures !listening
    {
      listening := false;
    }
  }

  /**
   * A scan started from the call to action reaches the camera, and a later
   * `fairlo:start-scan` event takes it back to a zooming globe with the call
   * to action visible again.
   */
  method CameraLeftByEvent() returns (afterZoom: Mode, afterEvent: Mode, ctaBack: bool)
    ensures afterZoom == Camera
    ensures afterEvent == Zooming && ctaBack
  {
    var hero := new HeroGlobe.Mount();
    hero.StartScan();
    hero.ZoomComplete();
    afterZoom := hero.mode;
    hero.DispatchStartScan();
    afterEvent, ctaBack := hero.mode, hero.ShowsCta();
  }

  /**
   * Once the hero has unmounted, the event no longer reaches it: a hero left
   * in camera mode stays there.
   */
  method EventAfterUnmountIgnored() returns (finalMode: Mode)
    ensures finalMode == Camera
  {
    var hero := new HeroGlobe.Mount();
    hero.StartScan();
    hero.ZoomComplete();
    hero.Unmount();
    hero.DispatchStartScan();
    finalMode := hero.mode;
  }
}
