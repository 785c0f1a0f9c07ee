/**
 * The parts of the browser's media-capture API the scanner touches: a stream
 * owns a fixed list of tracks, and stopping a track is the only way to release
 * the camera.
 */
module Media {

  class Track {
    const kind: string
    const name: string
    /** True once `stop()` has been called; a stopped track never restarts. */
    var stopped: bool

    constructor (kind: string, name: string)
      ensures this.kind == kind && this.name == name && !stopped
    {
      this.kind := kind;
      this.name := name;
      stopped := false;
    }

    method Stop()
      modifies this
      ensures stopped
    {
      stopped := true;
    }
  }

  class MediaStream {
    /** What `getTracks()` returns. */
    const tracks: seq<Track>

    constructor (tracks: seq<Track>)
      ensures this.tracks == tracks
    {
      this.tracks := tracks;
    }

    /** Every object whose state a stop of this stream may change. */
    function TrackSet(): set<Track>
    {
      set t | t in tracks
    }

    predicate AllStopped()
      reads TrackSet()
    {
      forall i :: 0 <= i < |tracks| ==> tracks[i].stopped
    }
  }

  /** `stream.getTracks().forEach(track => track.stop())`. */
  method StopAllTracks(stream: MediaStream)
    modifies stream.TrackSet()
    ensures stream.AllStopped()
    ensures forall t :: t in stream.TrackSet() ==> t.stopped
  {
    var i := 0;
    while i < |stream.tracks|
      invariant 0 <= i <= |stream.tracks|
      invariant forall j :: 0 <= j < i ==> stream.tracks[j].stopped
    {
      stream.tracks[i].Stop();
      i := i + 1;
    }
  }
}
