/**
 * The camera view: a status cell driven along `initCamera`'s asynchronous
 * chain, a debug log that keeps the five newest entries, the stream it stores
 * for teardown, and the capture guard.
 *
 * Browser callbacks (the `getUserMedia` settlement, the video element's
 * `loadedmetadata` and `error` events, the `play()` settlement and the 5 s
 * backup timer) are methods the environment calls. A pending callback is
 * recorded in the state so that a callback can only arrive after whatever
 * registered it. A callback created inside `initCamera` sees the `status` of
 * the render that created that `initCamera`, not the current one; that
 * captured value travels with the pending callback.
 */
module Camera {
  import opened ScanTypes
  import opened Media

  datatype CameraStatus =
    | Initializing
    | RequestingPermission
    | SettingStream
    | Ready
    | PlayError
    | VideoError
    | Timeout
    | Error

  /** Why `initCamera`'s `try` block threw. */
  datatype FailReason = NoMediaDevices | MediaRejected | NoVideoElement

  /** The debug messages, one per `addDebug` call site; message text and timestamps are not modelled. */
  datatype DebugNote =
    | Mounted
    | RequestingAccess
    | GettingUserMedia
    | StreamObtained(trackCount: nat)
    | TrackInfo(kind: string, name: string)
    | SettingVideoStream
    | MetadataLoaded(width: int, height: int)
    | Playing
    | PlayFailed
    | VideoFailed
    | BackupCheckOk
    | NotShowing
    | CameraFailed(reason: FailReason)
    | CameraStopped

  datatype VideoInfo = NoVideoInfo | VideoSize(width: int, height: int)

  /* ---------------------------------------------------------------- */
  /* Bounded debug log                                                */
  /* ---------------------------------------------------------------- */

  const MaxDebugEntries: nat := 5

  /** The last `n` elements of `s`, or all of them. */
  function Newest<T>(s: seq<T>, n: nat): (r: seq<T>)
    ensures |r| == if |s| <= n then |s| else n
  {
    if |s| <= n then s else s[|s| - n..]
  }

  /**
   * `addDebug`: keep at most four earlier entries (`prev.slice(-4)`) and
   * append the new one, so the log never holds more than five entries and
   * its last entry is always the newest message.
   */
  function AppendDebug(log: seq<DebugNote>, note: DebugNote): (r: seq<DebugNote>)
    ensures |r| == if |log| < MaxDebugEntries then |log| + 1 else MaxDebugEntries
    ensures r[|r| - 1] == note
  {
    Newest(log, MaxDebugEntries - 1) + [note]
  }

  /** Below the bound nothing is dropped. */
  lemma ShortLogKeepsAll(log: seq<DebugNote>, note: DebugNote)
    requires |log| < MaxDebugEntries
    ensures AppendDebug(log, note) == log + [note]
  {
  }

  /** Several `addDebug` calls in order. */
  function AppendAll(log: seq<DebugNote>, notes: seq<DebugNote>): (r: seq<DebugNote>)
    decreases |notes|
  {
    if notes == [] then log else AppendAll(AppendDebug(log, notes[0]), notes[1..])
  }

  /**
   * Starting from any log of at most five entries, any sequence of messages
   * leaves exactly the five newest entries of everything logged, in order.
   */
  lemma {:induction false} DebugLogKeepsNewest(log: seq<DebugNote>, notes: seq<DebugNote>)
    requires |log| <= MaxDebugEntries
    ensures AppendAll(log, notes) == Newest(log + notes, MaxDebugEntries)
    decreases |notes|
  {
    if notes != [] {
      var next := AppendDebug(log, notes[0]);
      DebugLogKeepsNewest(next, notes[1..]);
      NewestOfNewest(log, notes[0], notes[1..]);
    }
  }

  lemma NewestOfNewest(log: seq<DebugNote>, note: DebugNote, rest: seq<DebugNote>)
    ensures Newest(AppendDebug(log, note) + rest, MaxDebugEntries)
         == Newest(log + [note] + rest, MaxDebugEntries)
  {
    assert AppendDebug(log, note) + rest == Newest(log, MaxDebugEntries - 1) + ([note] + rest);
    assert log + [note] + rest == log + ([note] + rest);
    NewestOfSuffix(log, [note] + rest, MaxDebugEntries - 1, MaxDebugEntries);
  }

  /**
   * Trimming `s` to its newest `m` elements before appending `t` does not
   * change the newest `n` of the whole, as long as `m + |t|` covers `n`.
   */
  lemma NewestOfSuffix<T>(s: seq<T>, t: seq<T>, m: nat, n: nat)
    requires m + |t| >= n
    ensures Newest(Newest(s, m) + t, n) == Newest(s + t, n)
  {
    if |s| > m {
      var p, u := s[..|s| - m], s[|s| - m..];
      assert s + t == p + (u + t) by {
        assert s == p + u;
      }
      NewestDropsPrefix(p, u + t, n);
    }
  }

  /** Elements older than the newest `n` of `w` never matter. */
  lemma NewestDropsPrefix<T>(p: seq<T>, w: seq<T>, n: nat)
    requires |w| >= n
    ensures Newest(p + w, n) == Newest(w, n)
  {
    assert (p + w)[|p + w| - n..] == w[|w| - n..];
  }

  /** A log that is already bounded stays bounded. */
  lemma {:induction false} AppendAllBounded(log: seq<DebugNote>, notes: seq<DebugNote>)
    requires |log| <= MaxDebugEntries
    ensures |AppendAll(log, notes)| <= MaxDebugEntries
  {
    DebugLogKeepsNewest(log, notes);
  }

  lemma {:induction false} AppendAllSnoc(log: seq<DebugNote>, notes: seq<DebugNote>, note: DebugNote)
    ensures AppendAll(log, notes + [note]) == AppendDebug(AppendAll(log, notes), note)
    decreases |notes|
  {
    if notes == [] {
      assert notes + [note] == [note];
    } else {
      assert (notes + [note])[1..] == notes[1..] + [note];
      AppendAllSnoc(AppendDebug(log, notes[0]), notes[1..], note);
    }
  }

  /** Logging one more track extends the logged notes by that track's line. */
  lemma StreamNotesStep(log: seq<DebugNote>, head: DebugNote, tracks: seq<Track>, j: nat)
    requires j < |tracks|
    ensures AppendAll(log, [head] + TrackNotes(tracks[..j + 1]))
         == AppendDebug(AppendAll(log, [head] + TrackNotes(tracks[..j])), TrackInfo(tracks[j].kind, tracks[j].name))
  {
    var note := TrackInfo(tracks[j].kind, tracks[j].name);
    assert tracks[..j + 1][..j] == tracks[..j];
    assert TrackNotes(tracks[..j + 1]) == TrackNotes(tracks[..j]) + [note];
    assert [head] + TrackNotes(tracks[..j + 1]) == ([head] + TrackNotes(tracks[..j])) + [note];
    AppendAllSnoc(log, [head] + TrackNotes(tracks[..j]), note);
  }

  /** One `TrackInfo` line per track, as `forEach` logs them. */
  function TrackNotes(tracks: seq<Track>): (r: seq<DebugNote>)
    ensures |r| == |tracks|
  {
    if tracks == [] then [] else
    var last := tracks[|tracks| - 1];
    TrackNotes(tracks[..|tracks| - 1]) + [TrackInfo(last.kind, last.name)]
  }

  /* ---------------------------------------------------------------- */
  /* Capture                                                          */
  /* ---------------------------------------------------------------- */

  /** The fixed result `takePhoto` reports. */
  const TestItem: ScanItem := ScanItem(
    "Test Item", "🏷️", 150, 100, "₹", "₹80-120", 50,
    "Camera working! This is a test result.", "Test Location")

  /**
   * `takePhoto`, given the `status` its closure sees: nothing unless the
   * camera is ready, otherwise the test result, whose stored percentage is
   * consistent with its prices.
   */
  function TakePhoto(status: CameraStatus): (r: Option<ScanItem>)
    ensures r.Some? <==> status == Ready
    ensures r.Some? ==> r.value == TestItem && PercentConsistent(r.value)
  {
    PercentConsistentInIntegers(TestItem);
    if status != Ready then None else Some(TestItem)
  }

  /** The statuses in which some `initCamera` can be invoked: on mount, and from "Try Again". */
  predicate CanInit(s: CameraStatus)
  {
    s == Initializing || s == Error || s == Timeout
  }

  /** The status a pending callback captured from the render that created it. */
  type Captured = s: CameraStatus | CanInit(s) witness Initializing

  /* ---------------------------------------------------------------- */
  /* The component                                                    */
  /* ---------------------------------------------------------------- */

  class CameraView {
    var status: CameraStatus
    var debugInfo: seq<DebugNote>
    var videoInfo: VideoInfo
    /** `streamRef.current`. */
    var stream: MediaStream?
    /** Pending `getUserMedia` calls, each with the status its `initCamera` captured. */
    var mediaRequests: seq<Captured>
    /** `video.srcObject` is set and the metadata and error handlers are installed. */
    var videoBound: bool
    /** `play()` promises not yet settled. */
    var pendingPlays: nat
    /** Pending 5 s backup checks, each with the status its `initCamera` captured. */
    var backupTimers: seq<Captured>
    /**
     * Pending 2 s auto-scan timers. Each was scheduled by a render whose
     * status was `ready`, and its `takePhoto` sees that status.
     */
    var photoTimers: nat
    /** Every stream ever stored in `streamRef`, oldest first. */
    ghost var acquired: seq<MediaStream>

    ghost predicate Valid()
      reads this
    {
      && |debugInfo| <= MaxDebugEntries
      && (stream != null ==> |acquired| > 0 && stream == acquired[|acquired| - 1])
    }

    /** Every track of every stream the view has held. */
    ghost function AcquiredTracks(): set<Track>
      reads this
    {
      set i, t | 0 <= i < |acquired| && t in acquired[i].tracks :: t
    }

    /** Every stream the view has held, except possibly the current one, is stopped. */
    ghost predicate NoLeak()
      reads this, AcquiredTracks()
    {
      forall i :: 0 <= i < |acquired| ==> acquired[i] == stream || acquired[i].AllStopped()
    }

    /** Every stream the view has held is stopped. */
    ghost predicate AllReleased()
      reads this, AcquiredTracks()
    {
      forall i :: 0 <= i < |acquired| ==> acquired[i].AllStopped()
    }

    /**
     * Stops every track of the stream in `streamRef`, if any. When only that
     * stream could still be live, afterwards none is.
     */
    method ReleaseHeldStream()
      requires Valid()
      modifies if stream != null then stream.TrackSet() else {}
      ensures stream != null ==> stream.AllStopped()
      ensures old(NoLeak()) ==> AllReleased()
    {
      if stream != null {
        ghost var heldTracks := AcquiredTracks();
        StopAllTracks(stream);
        assert AcquiredTracks() == heldTracks;
      }
    }

    /** The "Try Again" button is offered for `error` and `timeout` only. */
    predicate TryAgainOffered()
      reads this
    {
      status == Error || status == Timeout
    }

    /** The "Take Photo" button exists only when the camera is ready. */
    predicate PhotoButtonShown()
      reads this
    {
      status == Ready
    }

    /** The auto-scan effect schedules a capture in 2 s exactly in this case. */
    predicate AutoScanScheduled(isScanning: bool)
      reads this
    {
      isScanning && status == Ready
    }

    /** The first render: the status starts at `initializing`, nothing logged, nothing pending. */
    constructor Mount()
      ensures Valid() && NoLeak()
      ensures status == Initializing && debugInfo == [] && videoInfo == NoVideoInfo
      ensures stream == null && acquired == [] && mediaRequests == [] && backupTimers == []
      ensures !videoBound && pendingPlays == 0 && photoTimers == 0
    {
      status := Initializing;
      debugInfo := [];
      videoInfo := NoVideoInfo;
      stream := null;
      mediaRequests := [];
      videoBound := false;
      pendingPlays := 0;
      backupTimers := [];
      photoTimers := 0;
      acquired := [];
    }

    /**
     * The mount effect: it logs, then calls the first render's `initCamera`,
     * whose closure sees `initializing`.
     */
    method MountEffect(hasMediaDevices: bool)
      requires Valid() && status == Initializing && debugInfo == [] && mediaRequests == []
      modifies this`status, this`debugInfo, this`mediaRequests
      ensures Valid()
      ensures !hasMediaDevices ==> (
        status == Error && mediaRequests == [] &&
        debugInfo == [Mounted, RequestingAccess, CameraFailed(NoMediaDevices)])
      ensures hasMediaDevices ==> (
        status == RequestingPermission && mediaRequests == [Initializing] &&
        debugInfo == [Mounted, RequestingAccess, GettingUserMedia])
    {
      AddDebug(Mounted);
      ShortLogKeepsAll([], Mounted);
      InitCamera(hasMediaDevices);
      ShortLogKeepsAll([Mounted], RequestingAccess);
      ShortLogKeepsAll([Mounted, RequestingAccess], GettingUserMedia);
      ShortLogKeepsAll([Mounted, RequestingAccess], CameraFailed(NoMediaDevices));
    }

    method AddDebug(note: DebugNote)
      modifies this`debugInfo
      ensures debugInfo == AppendDebug(old(debugInfo), note)
    {
      debugInfo := AppendDebug(debugInfo, note);
    }

    /**
     * `initCamera` up to its first `await`: the status becomes
     * `requesting_permission`; a missing media-devices API ends in `error`,
     * otherwise a `getUserMedia` request is left pending, carrying the
     * status this closure sees.
     */
    method InitCamera(hasMediaDevices: bool)
      requires Valid() && CanInit(status)
      modifies this`status, this`debugInfo, this`mediaRequests
      ensures Valid()
      ensures !hasMediaDevices ==> (
        status == Error && mediaRequests == old(mediaRequests) &&
        debugInfo == AppendDebug(AppendDebug(old(debugInfo), RequestingAccess), CameraFailed(NoMediaDevices)))
      ensures hasMediaDevices ==> (
        status == RequestingPermission && mediaRequests == old(mediaRequests) + [old(status)] &&
        debugInfo == AppendDebug(AppendDebug(old(debugInfo), RequestingAccess), GettingUserMedia))
    {
      var captured: Captured := status;
      status := RequestingPermission;
      AddDebug(RequestingAccess);
      if !hasMediaDevices {
        AddDebug(CameraFailed(NoMediaDevices));
        status := Error;
      } else {
        AddDebug(GettingUserMedia);
        mediaRequests := mediaRequests + [captured];
      }
    }

    /** "Try Again", offered in `error` and `timeout`, runs `initCamera` again. */
    method TryAgain(hasMediaDevices: bool)
      requires Valid() && TryAgainOffered()
      modifies this`status, this`debugInfo, this`mediaRequests
      ensures Valid()
      ensures !hasMediaDevices ==> (
        status == Error && mediaRequests == old(mediaRequests) &&
        debugInfo == AppendDebug(AppendDebug(old(debugInfo), RequestingAccess), CameraFailed(NoMediaDevices)))
      ensures hasMediaDevices ==> (
        status == RequestingPermission && mediaRequests == old(mediaRequests) + [old(status)] &&
        debugInfo == AppendDebug(AppendDebug(old(debugInfo), RequestingAccess), GettingUserMedia))
    {
      InitCamera(hasMediaDevices);
    }

    /** The notes `initCamera` logs once `getUserMedia` has produced `granted`. */
    static function StreamNotes(granted: MediaStream): seq<DebugNote>
    {
      [StreamObtained(|granted.tracks|)] + TrackNotes(granted.tracks)
    }

    /** The track count, then one line per track from `forEach`. */
    method LogStream(granted: MediaStream)
      modifies this`debugInfo
      ensures debugInfo == AppendAll(old(debugInfo), StreamNotes(granted))
    {
      var d0 := debugInfo;
      var n := |granted.tracks|;
      AddDebug(StreamObtained(n));
      assert debugInfo == AppendAll(d0, [StreamObtained(n)]);
      var j := 0;
      while j < n
        invariant 0 <= j <= n
        invariant debugInfo == AppendAll(d0, [StreamObtained(n)] + TrackNotes(granted.tracks[..j]))
      {
        var t := granted.tracks[j];
        StreamNotesStep(d0, StreamObtained(n), granted.tracks, j);
        AddDebug(TrackInfo(t.kind, t.name));
        j := j + 1;
      }
      assert granted.tracks[..j] == granted.tracks;
    }

    /**
     * Pending request `i` settles. A rejection ends in `error`. A stream is
     * stored in `streamRef` (replacing, not stopping, any earlier one) and
     * each of its tracks is logged; without a video element the status is
     * `error`, otherwise the stream is bound, the status is
     * `setting_stream` and a backup check is scheduled carrying the
     * request's captured status.
     */
    method OnUserMedia(i: nat, granted: MediaStream?, hasVideoElement: bool)
      requires Valid() && i < |mediaRequests|
      modifies this`status, this`debugInfo, this`stream, this`mediaRequests
      modifies this`videoBound, this`backupTimers, this`acquired
      ensures Valid()
      ensures mediaRequests == old(mediaRequests[..i] + mediaRequests[i + 1..])
      ensures granted == null ==> (
        status == Error && debugInfo == AppendDebug(old(debugInfo), CameraFailed(MediaRejected)) &&
        stream == old(stream) && acquired == old(acquired) &&
        videoBound == old(videoBound) && backupTimers == old(backupTimers))
      ensures granted != null ==> stream == granted && acquired == old(acquired) + [granted]
      ensures granted != null && !hasVideoElement ==> (
        status == Error && videoBound == old(videoBound) && backupTimers == old(backupTimers) &&
        debugInfo == AppendDebug(AppendAll(old(debugInfo), StreamNotes(granted)), CameraFailed(NoVideoElement)))
      ensures granted != null && hasVideoElement ==> (
        status == SettingStream && videoBound &&
        backupTimers == old(backupTimers) + [old(mediaRequests[i])] &&
        debugInfo == AppendDebug(AppendAll(old(debugInfo), StreamNotes(granted)), SettingVideoStream))
    {
      var captured := TakeRequest(i);
      if granted == null {
        AddDebug(CameraFailed(MediaRejected));
        status := Error;
      } else {
        AcceptStream(captured, granted, hasVideoElement);
      }
    }

    /** Removes pending request `i` and returns the status it captured. */
    method TakeRequest(i: nat) returns (captured: Captured)
      requires Valid() && i < |mediaRequests|
      modifies this`mediaRequests
      ensures Valid()
      ensures captured == old(mediaRequests[i])
      ensures mediaRequests == old(mediaRequests[..i] + mediaRequests[i + 1..])
    {
      captured := mediaRequests[i];
      mediaRequests := mediaRequests[..i] + mediaRequests[i + 1..];
    }

    /** The part of `initCamera` after a stream has been obtained. */
    method AcceptStream(captured: Captured, granted: MediaStream, hasVideoElement: bool)
      requires Valid()
      modifies this`status, this`debugInfo, this`stream, this`videoBound, this`backupTimers, this`acquired
      ensures Valid()
      ensures stream == granted && acquired == old(acquired) + [granted]
      ensures !hasVideoElement ==> (
        status == Error && videoBound == old(videoBound) && backupTimers == old(backupTimers) &&
        debugInfo == AppendDebug(AppendAll(old(debugInfo), StreamNotes(granted)), CameraFailed(NoVideoElement)))
      ensures hasVideoElement ==> (
        status == SettingStream && videoBound && backupTimers == old(backupTimers) + [captured] &&
        debugInfo == AppendDebug(AppendAll(old(debugInfo), StreamNotes(granted)), SettingVideoStream))
    {
      stream := granted;
      acquired := acquired + [granted];
      LogStream(granted);
      AppendAllBounded(old(debugInfo), StreamNotes(granted));
      BindVideo(captured, hasVideoElement);
    }

    /** Attaching the stored stream to the video element, if there is one. */
    method BindVideo(captured: Captured, hasVideoElement: bool)
      requires Valid()
      modifies this`status, this`debugInfo, this`videoBound, this`backupTimers
      ensures Valid()
      ensures !hasVideoElement ==> (
        status == Error && videoBound == old(videoBound) && backupTimers == old(backupTimers) &&
        debugInfo == AppendDebug(old(debugInfo), CameraFailed(NoVideoElement)))
      ensures hasVideoElement ==> (
        status == SettingStream && videoBound && backupTimers == old(backupTimers) + [captured] &&
        debugInfo == AppendDebug(old(debugInfo), SettingVideoStream))
    {
      if !hasVideoElement {
        AddDebug(CameraFailed(NoVideoElement));
        status := Error;
      } else {
        status := SettingStream;
        AddDebug(SettingVideoStream);
        videoBound := true;
        backupTimers := backupTimers + [captured];
      }
    }

    /**
     * The intended handling of a new stream: stop the stream `streamRef`
     * held before replacing it. Unlike `OnUserMedia`, this keeps every
     * stream but the current one stopped.
     */
    method OnUserMediaReleasingPrevious(i: nat, granted: MediaStream?, hasVideoElement: bool)
      requires Valid() && i < |mediaRequests|
      modifies this`status, this`debugInfo, this`stream, this`mediaRequests
      modifies this`videoBound, this`backupTimers, this`acquired
      modifies if stream != null && granted != null then stream.TrackSet() else {}
      ensures Valid()
      ensures old(NoLeak()) ==> NoLeak()
      ensures granted != null && old(stream) != null ==> old(stream).AllStopped()
      ensures mediaRequests == old(mediaRequests[..i] + mediaRequests[i + 1..])
      ensures granted == null ==> (
        status == Error && debugInfo == AppendDebug(old(debugInfo), CameraFailed(MediaRejected)) &&
        stream == old(stream) && acquired == old(acquired) &&
        videoBound == old(videoBound) && backupTimers == old(backupTimers))
      ensures granted != null ==> stream == granted && acquired == old(acquired) + [granted]
      ensures granted != null && !hasVideoElement ==> (
        status == Error && videoBound == old(videoBound) && backupTimers == old(backupTimers) &&
        debugInfo == AppendDebug(AppendAll(old(debugInfo), StreamNotes(granted)), CameraFailed(NoVideoElement)))
      ensures granted != null && hasVideoElement ==> (
        status == SettingStream && videoBound &&
        backupTimers == old(backupTimers) + [old(mediaRequests[i])] &&
        debugInfo == AppendDebug(AppendAll(old(debugInfo), StreamNotes(granted)), SettingVideoStream))
    {
      if granted != null {
        ReleaseHeldStream();
      }
      OnUserMedia(i, granted, hasVideoElement);
      if granted != null {
        assert forall k :: 0 <= k < |old(acquired)| ==> acquired[k] == old(acquired)[k];
      }
    }

    /** `video.onloadedmetadata`: logs, records the size and calls `play()`. */
    method OnMetadataLoaded(width: int, height: int)
      requires Valid() && videoBound
      modifies this`debugInfo, this`videoInfo, this`pendingPlays
      ensures Valid()
      ensures debugInfo == AppendDebug(old(debugInfo), MetadataLoaded(width, height))
      ensures videoInfo == VideoSize(width, height) && pendingPlays == old(pendingPlays) + 1
    {
      AddDebug(MetadataLoaded(width, height));
      videoInfo := VideoSize(width, height);
      pendingPlays := pendingPlays + 1;
    }

    /** A `play()` promise settles: `ready` on success, `play_error` on failure. */
    method OnPlaySettled(succeeded: bool)
      requires Valid() && pendingPlays > 0
      modifies this`debugInfo, this`status, this`pendingPlays
      ensures Valid()
      ensures pendingPlays == old(pendingPlays) - 1
      ensures succeeded ==> status == Ready && debugInfo == AppendDebug(old(debugInfo), Playing)
      ensures !succeeded ==> status == PlayError && debugInfo == AppendDebug(old(debugInfo), PlayFailed)
    {
      pendingPlays := pendingPlays - 1;
      if succeeded {
        AddDebug(Playing);
        status := Ready;
      } else {
        AddDebug(PlayFailed);
        status := PlayError;
      }
    }

    /** `video.onerror`. */
    method OnVideoError()
      requires Valid() && videoBound
      modifies this`debugInfo, this`status
      ensures Valid()
      ensures status == VideoError && debugInfo == AppendDebug(old(debugInfo), VideoFailed)
    {
      AddDebug(VideoFailed);
      status := VideoError;
    }

    /**
     * Backup check `i` fires after 5 s. A non-zero width forces `ready`,
     * overriding whatever the status was. A zero width sets `timeout` unless
     * the captured status was `ready`; since every captured status is one in
     * which `initCamera` can run, it never is, so a zero width always ends in
     * `timeout`, even over a camera that became ready in the meantime.
     */
    method OnBackupCheck(i: nat, width: int, height: int)
      requires Valid() && i < |backupTimers|
      modifies this`debugInfo, this`status, this`videoInfo, this`backupTimers
      ensures Valid()
      ensures backupTimers == old(backupTimers[..i] + backupTimers[i + 1..])
      ensures width > 0 ==> (
        status == Ready && videoInfo == VideoSize(width, height) &&
        debugInfo == AppendDebug(old(debugInfo), BackupCheckOk))
      ensures width <= 0 ==> (
        status == Timeout && videoInfo == old(videoInfo) &&
        debugInfo == AppendDebug(old(debugInfo), NotShowing))
    {
      var captured := backupTimers[i];
      backupTimers := backupTimers[..i] + backupTimers[i + 1..];
      if width > 0 {
        AddDebug(BackupCheckOk);
        status := Ready;
        videoInfo := VideoSize(width, height);
      } else if captured != Ready {
        AddDebug(NotShowing);
        status := Timeout;
      }
    }

    /** The auto-scan effect, run whenever `isScanning` or the status changes. */
    method AutoScanEffect(isScanning: bool)
      modifies this`photoTimers
      ensures AutoScanScheduled(isScanning) ==> photoTimers == old(photoTimers) + 1
      ensures !AutoScanScheduled(isScanning) ==> photoTimers == old(photoTimers)
    {
      if AutoScanScheduled(isScanning) {
        photoTimers := photoTimers + 1;
      }
    }

    /**
     * An auto-scan timer fires. Its `takePhoto` sees the `ready` of the render
     * that scheduled it, so it reports the test result whatever the status
     * is now, and even after the view has unmounted: the timer is never
     * cleared.
     */
    method PhotoTimerFired() returns (reported: Option<ScanItem>)
      requires photoTimers > 0
      modifies this`photoTimers
      ensures photoTimers == old(photoTimers) - 1
      ensures reported == TakePhoto(Ready) && reported == Some(TestItem)
    {
      photoTimers := photoTimers - 1;
      reported := TakePhoto(Ready);
    }

    /** The Take Photo button, which is rendered only when the camera is ready. */
    method PressTakePhoto() returns (reported: Option<ScanItem>)
      requires PhotoButtonShown()
      ensures reported == TakePhoto(status) && reported == Some(TestItem)
    {
      reported := TakePhoto(status);
    }

    /**
     * Unmount cleanup: every track of the stream in `streamRef`, if any, is
     * stopped. Earlier streams replaced by a retry are not reached; with
     * `NoLeak` they were already stopped, and then nothing the view ever
     * held stays live.
     */
    method Unmount()
      requires Valid()
      modifies this`debugInfo, if stream != null then stream.TrackSet() else {}
      ensures Valid()
      ensures stream != null ==> (
        stream.AllStopped() && debugInfo == AppendDebug(old(debugInfo), CameraStopped))
      ensures stream == null ==> debugInfo == old(debugInfo)
      ensures old(NoLeak()) ==> AllReleased()
    {
      ReleaseHeldStream();
      if stream != null {
        AddDebug(CameraStopped);
      }
    }
  }

  /** A mounted view whose first attempt obtained a one-track stream and bound it. */
  method FirstStreamBound() returns (view: CameraView, first: Track)
    ensures fresh(view) && fresh(first)
    ensures view.Valid() && view.videoBound && !first.stopped
    ensures view.stream != null && view.stream.tracks == [first] && view.acquired == [view.stream]
    ensures view.mediaRequests == [] && view.backupTimers == [Initializing]
    ensures view.pendingPlays == 0 && view.photoTimers == 0
  {
    view := new CameraView.Mount();
    view.MountEffect(true);
    first := new Track("video", "camera");
    var stream := new MediaStream([first]);
    view.OnUserMedia(0, stream, true);
  }

  /** The first attempt's backup check sees no picture, so "Try Again" is offered. */
  method FirstAttemptTimesOut() returns (view: CameraView, first: Track)
    ensures fresh(view) && fresh(first)
    ensures view.Valid() && view.TryAgainOffered() && !first.stopped
    ensures view.stream != null && view.stream.tracks == [first] && view.mediaRequests == []
    ensures view.acquired == [view.stream] && view.NoLeak()
  {
    view, first := FirstStreamBound();
    view.OnBackupCheck(0, 0, 0);
  }

  /** The first attempt's video plays, so the view is ready and nothing is scheduled yet. */
  method FirstAttemptPlays() returns (view: CameraView)
    ensures fresh(view) && view.Valid() && view.PhotoButtonShown() && view.photoTimers == 0
  {
    var first;
    view, first := FirstStreamBound();
    view.OnMetadataLoaded(640, 480);
    view.OnPlaySettled(true);
  }

  /**
   * What the source does on a retry: the first stream's track is still live
   * after the view has been unmounted.
   */
  method RetryLeaksFirstStream() returns (leaked: Track)
    ensures !leaked.stopped
  {
    var view;
    view, leaked := FirstAttemptTimesOut();
    view.TryAgain(true);
    assert |view.mediaRequests| == 1;
    var other := new Track("video", "camera");
    var second := new MediaStream([other]);
    view.OnUserMedia(0, second, true);
    assert leaked !in second.TrackSet();
    view.Unmount();
  }

  /**
   * The same sequence with the intended handling of the second stream: after
   * unmount both the first and the second stream's tracks are stopped.
   */
  method RetryReleasingStopsBothStreams() returns (first: Track, second: Track)
    ensures first.stopped && second.stopped
  {
    var view;
    view, first := FirstAttemptTimesOut();
    view.TryAgain(true);
    assert |view.mediaRequests| == 1;
    second := new Track("video", "camera");
    var retried := new MediaStream([second]);
    view.OnUserMediaReleasingPrevious(0, retried, true);
    view.Unmount();
    assert view.acquired[0].tracks[0] == first && view.acquired[1].tracks[0] == second;
  }
}
