/**
 * VideoRenderer's per-slot bookkeeping as an object over eight-slot arrays. Each
 * operation is proved to leave every slot as the matching RendererSpec function says.
 */
module Renderer {
  import opened Options
  import opened MediaStates
  import opened MediaTypes
  import opened Targets
  import H = HelperSpec
  import opened PlayerHelper
  import opened RendererSpec

  class VideoRenderer {
    var isActive: bool
    const helpers: array<MediaPlayerHelper?>
    const movieName: array<string>
    const canRequestType: array<MediaType>
    const seekPosition: array<int>
    const seek: array<int>
    const shouldPlayImmediately: array<bool>
    const lostTrackingSince: array<int>
    const loadRequested: array<bool>
    const isTracking: array<bool>
    /** The state last decoded by setStatus; None before the first one. */
    const currentStatus: array<Option<MediaState>>

    /** Eight slots in every array, and no two arrays of the same type shared. */
    ghost predicate Valid()
    {
      && helpers.Length == NUM_TARGETS && movieName.Length == NUM_TARGETS
      && canRequestType.Length == NUM_TARGETS && seekPosition.Length == NUM_TARGETS
      && seek.Length == NUM_TARGETS && shouldPlayImmediately.Length == NUM_TARGETS
      && lostTrackingSince.Length == NUM_TARGETS && loadRequested.Length == NUM_TARGETS
      && isTracking.Length == NUM_TARGETS && currentStatus.Length == NUM_TARGETS
      && seekPosition != seek && seekPosition != lostTrackingSince && seek != lostTrackingSince
      && shouldPlayImmediately != loadRequested && shouldPlayImmediately != isTracking
      && loadRequested != isTracking
    }

    ghost function HelperObjects(): set<object>
      reads helpers
    {
      set i | 0 <= i < helpers.Length && helpers[i] != null :: helpers[i] as object
    }

    /** The stored helpers are pairwise distinct and each keeps its own invariant. */
    ghost predicate HelpersOk()
      reads helpers, HelperObjects()
    {
      && Valid()
      && (forall i, j :: 0 <= i < j < NUM_TARGETS && helpers[i] != null ==> helpers[i] != helpers[j])
      && (forall i :: 0 <= i < NUM_TARGETS && helpers[i] != null ==> helpers[i].Valid())
    }

    ghost function HelperAt(i: int): Option<H.Helper>
      requires Valid() && IsSlot(i)
      reads helpers, helpers[i]
    {
      if helpers[i] == null then None else Some(helpers[i].Snap())
    }

    ghost function LoadSlotAt(i: int): LoadSlot
      requires Valid() && IsSlot(i)
      reads helpers, helpers[i], canRequestType, loadRequested, movieName, seekPosition,
            shouldPlayImmediately
    {
      LoadSlot(HelperAt(i), canRequestType[i], loadRequested[i], movieName[i], seekPosition[i],
               shouldPlayImmediately[i])
    }

    ghost function TrackSlotAt(i: int): TrackSlot
      requires Valid() && IsSlot(i)
      reads helpers, helpers[i], lostTrackingSince, seek
    {
      TrackSlot(HelperAt(i), lostTrackingSince[i], seek[i])
    }

    /** Every slot starts without a helper or a pending load, asking for on-texture play. */
    constructor ()
      ensures Valid() && !isActive
      ensures fresh(helpers) && fresh(movieName) && fresh(canRequestType) && fresh(seekPosition)
      ensures fresh(seek) && fresh(shouldPlayImmediately) && fresh(lostTrackingSince)
      ensures fresh(loadRequested) && fresh(isTracking) && fresh(currentStatus)
      ensures forall i :: IsSlot(i) ==>
                && helpers[i] == null && movieName[i] == "" && canRequestType[i] == OnTextureFullscreen
                && seekPosition[i] == 0 && seek[i] == 0 && !shouldPlayImmediately[i]
                && lostTrackingSince[i] == NOT_LOST && !loadRequested[i]
                && !isTracking[i] && currentStatus[i] == None
    {
      isActive := false;
      helpers := new MediaPlayerHelper?[NUM_TARGETS](_ => null);
      movieName := new string[NUM_TARGETS](_ => "");
      canRequestType := new MediaType[NUM_TARGETS](_ => OnTextureFullscreen);
      seekPosition := new int[NUM_TARGETS](_ => 0);
      seek := new int[NUM_TARGETS](_ => 0);
      shouldPlayImmediately := new bool[NUM_TARGETS](_ => false);
      lostTrackingSince := new int[NUM_TARGETS](_ => NOT_LOST);
      loadRequested := new bool[NUM_TARGETS](_ => false);
      isTracking := new bool[NUM_TARGETS](_ => false);
      currentStatus := new Option<MediaState>[NUM_TARGETS](_ => None);
    }

    method SetVideoPlayerHelper(target: int, playerHelper: MediaPlayerHelper?)
      requires Valid() && IsSlot(target)
      modifies helpers
      ensures helpers[..] == old(helpers[..])[target := playerHelper]
    {
      helpers[target] := playerHelper;
    }

    /** Records a load for the slot, to be dispatched once the drawing surface exists. */
    method RequestLoad(target: int, name: string, seekPos: int, playImmediately: bool)
      requires Valid() && IsSlot(target)
      modifies movieName, seekPosition, seek, shouldPlayImmediately, loadRequested
      ensures movieName[target] == name && seekPosition[target] == seekPos && seek[target] == seekPos
      ensures shouldPlayImmediately[target] == playImmediately && loadRequested[target]
      ensures forall j :: IsSlot(j) && j != target ==>
                && movieName[j] == old(movieName[j]) && seekPosition[j] == old(seekPosition[j])
                && seek[j] == old(seek[j]) && shouldPlayImmediately[j] == old(shouldPlayImmediately[j])
                && loadRequested[j] == old(loadRequested[j])
    {
      movieName[target] := name;
      seekPosition[target] := seekPos;
      seek[target] := seekPos;
      shouldPlayImmediately[target] := playImmediately;
      loadRequested[target] := true;
    }

    /** One slot of onSurfaceCreated: set up the surface texture and dispatch the pending load. */
    method SurfaceCreatedAt(i: int, assets: set<string>)
      requires HelpersOk() && IsSlot(i)
      modifies canRequestType, loadRequested, helpers[i]
      ensures HelpersOk()
      ensures LoadSlotAt(i) == SurfaceCreated(old(LoadSlotAt(i)), assets)
      ensures forall j :: IsSlot(j) && j != i ==> LoadSlotAt(j) == old(LoadSlotAt(j))
    {
      var h := helpers[i];
      if h != null {
        var ok := h.SetupSurfaceTexture();
        canRequestType[i] := if ok then OnTextureFullscreen else Fullscreen;
        if loadRequested[i] {
          var _ := h.Load(movieName[i], canRequestType[i], shouldPlayImmediately[i],
                          seekPosition[i], assets);
          loadRequested[i] := false;
        }
      }
    }

    method OnSurfaceCreated(assets: set<string>)
      requires HelpersOk()
      modifies canRequestType, loadRequested, HelperObjects()
      ensures HelpersOk()
      ensures forall i :: IsSlot(i) ==> LoadSlotAt(i) == SurfaceCreated(old(LoadSlotAt(i)), assets)
    {
      for i := 0 to NUM_TARGETS
        invariant HelpersOk()
        invariant forall j :: 0 <= j < i ==> LoadSlotAt(j) == SurfaceCreated(old(LoadSlotAt(j)), assets)
        invariant forall j :: i <= j < NUM_TARGETS ==> LoadSlotAt(j) == old(LoadSlotAt(j))
      {
        SurfaceCreatedAt(i, assets);
      }
    }

    /** One slot of onSurfaceChanged: dispatch a pending load if the slot has a helper. */
    method SurfaceChangedAt(i: int, assets: set<string>)
      requires HelpersOk() && IsSlot(i)
      modifies loadRequested, helpers[i]
      ensures HelpersOk()
      ensures LoadSlotAt(i) == SurfaceChanged(old(LoadSlotAt(i)), assets)
      ensures forall j :: IsSlot(j) && j != i ==> LoadSlotAt(j) == old(LoadSlotAt(j))
    {
      var h := helpers[i];
      if loadRequested[i] && h != null {
        var _ := h.Load(movieName[i], canRequestType[i], shouldPlayImmediately[i],
                        seekPosition[i], assets);
        loadRequested[i] := false;
      }
    }

    method OnSurfaceChanged(assets: set<string>)
      requires HelpersOk()
      modifies loadRequested, HelperObjects()
      ensures HelpersOk()
      ensures forall i :: IsSlot(i) ==> LoadSlotAt(i) == SurfaceChanged(old(LoadSlotAt(i)), assets)
    {
      for i := 0 to NUM_TARGETS
        invariant HelpersOk()
        invariant forall j :: 0 <= j < i ==> LoadSlotAt(j) == SurfaceChanged(old(LoadSlotAt(j)), assets)
        invariant forall j :: i <= j < NUM_TARGETS ==> LoadSlotAt(j) == old(LoadSlotAt(j))
      {
        SurfaceChangedAt(i, assets);
      }
    }

    method SetStatus(target: int, value: int)
      requires Valid() && IsSlot(target)
      modifies currentStatus
      ensures currentStatus[..] == old(currentStatus[..])[target := Some(StatusOf(value))]
    {
      currentStatus[target] := Some(StatusOf(value));
    }

    /** The first loop of onDrawFrame: every slot with a helper takes over the helper's state. */
    method SyncStatus()
      requires Valid()
      modifies currentStatus
      ensures forall i :: IsSlot(i) ==>
                currentStatus[i] == (if HelperAt(i).Some? then Some(HelperAt(i).value.state)
                                     else old(currentStatus[i]))
    {
      for i := 0 to NUM_TARGETS
        invariant forall j :: 0 <= j < i ==>
                    currentStatus[j] == (if HelperAt(j).Some? then Some(HelperAt(j).value.state)
                                         else old(currentStatus[j]))
        invariant forall j :: i <= j < NUM_TARGETS ==> currentStatus[j] == old(currentStatus[j])
      {
        var h := helpers[i];
        if h != null {
          SetStatus(i, MediaStates.NumericType(h.GetStatus()));
          StatusOfRoundTrip(h.state);
        }
      }
    }

    /**
     * renderFrame: marks the slots whose markers are tracked this frame and reports what
     * is drawn over each; names that name no slot are skipped.
     */
    method RenderFrame(trackables: seq<string>) returns (drawn: seq<Drawing>)
      requires Valid()
      modifies isTracking
      ensures isTracking[..] == Tracking(trackables)
      ensures drawn == Drawings(trackables, currentStatus[..])
    {
      for i := 0 to NUM_TARGETS
        invariant forall j :: 0 <= j < i ==> !isTracking[j]
      {
        isTracking[i] := false;
      }
      ghost var none := seq(NUM_TARGETS, _ => false);
      assert isTracking[..] == none;
      drawn := [];
      for k := 0 to |trackables|
        invariant MarkTracked(isTracking[..], trackables[k..]) == MarkTracked(none, trackables)
        invariant drawn + Drawings(trackables[k..], currentStatus[..]) == Drawings(trackables, currentStatus[..])
      {
        assert trackables[k..][1..] == trackables[k + 1..];
        var target := GetCurrentTarget(trackables[k]);
        if IsSlot(target) {
          isTracking[target] := true;
          drawn := drawn + [Drawing(target, SelectOverlay(currentStatus[target]))];
        }
      }
      assert trackables[|trackables|..] == [];
      MarkTrackedFromScratch(trackables);
    }

    /** One slot of the last loop of onDrawFrame. */
    method ReactAt(i: int, now: int)
      requires HelpersOk() && IsSlot(i)
      modifies lostTrackingSince, seek, helpers[i]
      ensures HelpersOk()
      ensures TrackSlotAt(i) == TrackStep(old(TrackSlotAt(i)), isTracking[i], now)
      ensures forall j :: IsSlot(j) && j != i ==> TrackSlotAt(j) == old(TrackSlotAt(j))
    {
      var h := helpers[i];
      if isTracking[i] {
        lostTrackingSince[i] := NOT_LOST;
        if h != null {
          var playing := h.IsPlaying();
          if !playing {
            var _, _ := h.Play(false, seek[i]);
          }
        }
      } else if lostTrackingSince[i] < 0 {
        lostTrackingSince[i] := now;
      } else if now - lostTrackingSince[i] > LOST_TRACKING_PAUSE_MS {
        if h != null {
          var _ := h.Pause();
          seek[i] := h.GetCurrentPosition();
        }
      }
    }

    /** The last loop of onDrawFrame: resume found markers, time and pause lost ones. */
    method ReactToTracking(now: int)
      requires HelpersOk()
      modifies lostTrackingSince, seek, HelperObjects()
      ensures HelpersOk()
      ensures forall i :: IsSlot(i) ==> TrackSlotAt(i) == TrackStep(old(TrackSlotAt(i)), isTracking[i], now)
    {
      for i := 0 to NUM_TARGETS
        invariant HelpersOk()
        invariant forall j :: 0 <= j < i ==> TrackSlotAt(j) == TrackStep(old(TrackSlotAt(j)), isTracking[j], now)
        invariant forall j :: i <= j < NUM_TARGETS ==> TrackSlotAt(j) == old(TrackSlotAt(j))
      {
        ReactAt(i, now);
      }
    }

    /**
     * One frame at time `now` with the given trackables in view. An inactive renderer does
     * nothing; an active one syncs the states, draws, and reacts to tracking per slot.
     */
    method OnDrawFrame(now: int, trackables: seq<string>) returns (drawn: seq<Drawing>)
      requires HelpersOk()
      modifies currentStatus, isTracking, lostTrackingSince, seek, HelperObjects()
      ensures HelpersOk()
      ensures !isActive ==> drawn == [] && unchanged(currentStatus, isTracking, lostTrackingSince, seek)
                            && unchanged(HelperObjects())
      ensures isActive ==> forall i :: IsSlot(i) ==>
                currentStatus[i] == (if old(HelperAt(i)).Some? then Some(old(HelperAt(i)).value.state)
                                     else old(currentStatus[i]))
      ensures isActive ==> isTracking[..] == Tracking(trackables)
      ensures isActive ==> drawn == Drawings(trackables, currentStatus[..])
      ensures isActive ==> forall i :: IsSlot(i) ==>
                TrackSlotAt(i) == TrackStep(old(TrackSlotAt(i)), isTracking[i], now)
    {
      if !isActive {
        return [];
      }
      SyncStatus();
      drawn := RenderFrame(trackables);
      assert forall i :: IsSlot(i) ==> TrackSlotAt(i) == old(TrackSlotAt(i));
      ReactToTracking(now);
    }
  }
}
