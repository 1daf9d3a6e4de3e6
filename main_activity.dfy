/**
 * MainActivity as an object: it owns the eight helpers and its per-slot arrays, shares the
 * helpers with the renderer, and each callback is proved to leave the state ActivitySpec
 * gives for it.
 */
module Activity {
  import opened Options
  import opened MediaStates
  import opened MediaTypes
  import opened Targets
  import H = HelperSpec
  import opened PlayerHelper
  import Renderer
  import RendererSpec
  import S = ActivitySpec

  class MainActivity {
    const helpers: array<MediaPlayerHelper>
    const seekPosition: array<int>
    const wasPlaying: array<bool>
    const movieName: array<string>
    var playFullscreenVideo: bool
    var returningFromFullScreen: bool
    var renderer: Renderer.VideoRenderer?

    ghost function HelperSet(): set<object>
      reads helpers
    {
      set i | 0 <= i < helpers.Length :: helpers[i] as object
    }

    /** The renderer's arrays that a reload request writes. */
    ghost function RequestArrays(): set<object>
      reads this
    {
      if renderer == null then {}
      else {renderer.movieName as object, renderer.seekPosition as object, renderer.seek as object,
            renderer.shouldPlayImmediately as object, renderer.loadRequested as object}
    }

    /** Array lengths; a renderer, once created, is well formed and shares no array with the activity. */
    ghost predicate Shape()
      reads this
    {
      && helpers.Length == NUM_TARGETS && seekPosition.Length == NUM_TARGETS
      && wasPlaying.Length == NUM_TARGETS && movieName.Length == NUM_TARGETS
      && (renderer != null ==>
            && renderer.Valid()
            && seekPosition != renderer.seekPosition && seekPosition != renderer.seek
            && seekPosition != renderer.lostTrackingSince
            && wasPlaying != renderer.shouldPlayImmediately && wasPlaying != renderer.loadRequested
            && wasPlaying != renderer.isTracking && movieName != renderer.movieName)
    }

    /** Eight distinct helpers, each keeping its own invariant. */
    ghost predicate HelpersValid()
      reads helpers, HelperSet()
    {
      && helpers.Length == NUM_TARGETS
      && (forall i, j :: 0 <= i < j < NUM_TARGETS ==> helpers[i] != helpers[j])
      && (forall i :: 0 <= i < NUM_TARGETS ==> helpers[i].Valid())
    }

    /** The renderer, once created, holds exactly the activity's helpers. */
    ghost predicate Linked()
      reads this, helpers, if renderer != null then {renderer.helpers} else {}
    {
      renderer != null ==>
        && renderer.helpers.Length == NUM_TARGETS && helpers.Length == NUM_TARGETS
        && forall i :: IsSlot(i) ==> renderer.helpers[i] == helpers[i]
    }

    ghost predicate Valid()
      reads this, helpers, HelperSet(), if renderer != null then {renderer.helpers} else {}
    {
      Shape() && HelpersValid() && Linked()
    }

    ghost function Helpers(): seq<H.Helper>
      reads helpers, HelperSet()
    {
      seq(helpers.Length, i requires 0 <= i < helpers.Length reads helpers, HelperSet() => helpers[i].Snap())
    }

    ghost function Model(): S.Screen
      reads this, helpers, HelperSet(), seekPosition, wasPlaying, movieName
    {
      S.Screen(Helpers(), seekPosition[..], wasPlaying[..], movieName[..], playFullscreenVideo,
               returningFromFullScreen)
    }

    /** Frame step: when only slot i's helper changed, the others and the invariant carry over. */
    twostate lemma OnlySlotChanged(i: int)
      requires old(HelpersValid()) && IsSlot(i)
      requires unchanged(helpers) && helpers[i].Valid()
      requires forall j :: IsSlot(j) && j != i ==> unchanged(helpers[j])
      ensures HelpersValid()
      ensures Helpers() == old(Helpers())[i := helpers[i].Snap()]
    {
      assert forall j :: IsSlot(j) ==> Helpers()[j] == old(Helpers())[i := helpers[i].Snap()][j];
    }

    /** The renderer can be driven with the activity's helpers: they satisfy its own invariant. */
    lemma RendererHelpersOk()
      requires Valid() && renderer != null
      ensures renderer.HelpersOk()
    {
    }

    /** The helpers onCreate creates and initialises, one per slot. */
    static method NewHelpers() returns (created: seq<MediaPlayerHelper>)
      ensures |created| == NUM_TARGETS
      ensures forall j, k :: 0 <= j < k < NUM_TARGETS ==> created[j] != created[k]
      ensures forall j :: 0 <= j < NUM_TARGETS ==>
                fresh(created[j]) && created[j].Snap() == H.INITIAL && created[j].Valid()
    {
      created := [];
      for i := 0 to NUM_TARGETS
        invariant |created| == i
        invariant forall j, k :: 0 <= j < k < i ==> created[j] != created[k]
        invariant forall j :: 0 <= j < i ==>
                    fresh(created[j]) && created[j].Snap() == H.INITIAL && created[j].Valid()
      {
        var h := new MediaPlayerHelper();
        created := created + [h];
      }
    }

    /** onCreate: eight fresh helpers and the packaged movie of each slot. */
    constructor ()
      ensures Valid() && renderer == null && Model() == S.Created()
      ensures fresh(helpers) && fresh(HelperSet()) && fresh(seekPosition) && fresh(wasPlaying)
      ensures fresh(movieName)
    {
      var created := NewHelpers();
      helpers := new MediaPlayerHelper[NUM_TARGETS](i requires 0 <= i < NUM_TARGETS => created[i]);
      seekPosition := new int[NUM_TARGETS](_ => 0);
      wasPlaying := new bool[NUM_TARGETS](_ => false);
      movieName := new string[NUM_TARGETS](i requires 0 <= i < NUM_TARGETS => S.MovieNames()[i]);
      playFullscreenVideo := false;
      returningFromFullScreen := false;
      renderer := null;
      new;
      assert movieName[..] == S.MovieNames();
      assert forall j :: 0 <= j < NUM_TARGETS ==> Helpers()[j] == H.INITIAL;
      assert Helpers() == S.Created().helpers;
      assert seekPosition[..] == S.Created().seekPosition && wasPlaying[..] == S.Created().wasPlaying;
    }

    /**
     * initApplicationAR: a new renderer is handed the helpers and asked to load every
     * movie from the start without playing.
     */
    method InitApplicationAR() returns (r: Renderer.VideoRenderer)
      requires Valid()
      ensures fresh(r) && r.Valid() && !r.isActive
      ensures fresh(r.helpers) && fresh(r.movieName) && fresh(r.canRequestType) && fresh(r.seekPosition)
      ensures fresh(r.seek) && fresh(r.shouldPlayImmediately) && fresh(r.lostTrackingSince)
      ensures fresh(r.loadRequested) && fresh(r.isTracking) && fresh(r.currentStatus)
      ensures forall i :: IsSlot(i) ==>
                && r.helpers[i] == helpers[i] && r.movieName[i] == movieName[i]
                && r.seekPosition[i] == 0 && r.seek[i] == 0 && !r.shouldPlayImmediately[i]
                && r.loadRequested[i] && r.canRequestType[i] == OnTextureFullscreen
                && r.lostTrackingSince[i] == RendererSpec.NOT_LOST
    {
      r := new Renderer.VideoRenderer();
      HandOver(r);
    }

    /** The loop of initApplicationAR: each slot's helper and movie go to the renderer. */
    method HandOver(r: Renderer.VideoRenderer)
      requires Shape() && r.Valid()
      modifies r.helpers, r.movieName, r.seekPosition, r.seek, r.shouldPlayImmediately, r.loadRequested
      ensures forall i :: IsSlot(i) ==>
                && r.helpers[i] == helpers[i] && r.movieName[i] == movieName[i]
                && r.seekPosition[i] == 0 && r.seek[i] == 0 && !r.shouldPlayImmediately[i]
                && r.loadRequested[i]
    {
      for i := 0 to NUM_TARGETS
        invariant forall j :: 0 <= j < i ==>
                    && r.helpers[j] == helpers[j] && r.movieName[j] == movieName[j]
                    && r.seekPosition[j] == 0 && r.seek[j] == 0 && !r.shouldPlayImmediately[j]
                    && r.loadRequested[j]
      {
        r.SetVideoPlayerHelper(i, helpers[i]);
        r.RequestLoad(i, movieName[i], 0, false);
      }
    }

    /** onInitARDone after a successful initialisation: the new renderer is activated. */
    method OnInitARDone()
      requires Valid()
      modifies this
      ensures Valid() && Model() == old(Model())
      ensures renderer != null && fresh(renderer) && renderer.isActive
      ensures forall i :: IsSlot(i) ==>
                && renderer.movieName[i] == movieName[i] && renderer.seekPosition[i] == 0
                && renderer.seek[i] == 0 && !renderer.shouldPlayImmediately[i] && renderer.loadRequested[i]
                && renderer.canRequestType[i] == OnTextureFullscreen
                && renderer.lostTrackingSince[i] == RendererSpec.NOT_LOST
    {
      var r := InitApplicationAR();
      renderer := r;
      r.isActive := true;
    }

    /** pauseAll: pause every on-texture slot but `except`. */
    method PauseAll(except: int)
      requires Valid()
      modifies HelperSet()
      ensures Valid()
      ensures Helpers() == S.PauseAll(old(Helpers()), except)
    {
      ghost var target := S.PauseAll(old(Helpers()), except);
      for i := 0 to NUM_TARGETS
        invariant Valid()
        invariant forall j :: 0 <= j < i ==> Helpers()[j] == target[j]
        invariant forall j :: i <= j < NUM_TARGETS ==> Helpers()[j] == old(Helpers())[j]
      {
        if i != except {
          PauseIfOnTexture(i);
        }
      }
      assert forall j :: 0 <= j < NUM_TARGETS ==> Helpers()[j] == target[j];
    }

    /** One slot of pauseAll. */
    method PauseIfOnTexture(i: int)
      requires Valid() && IsSlot(i)
      modifies helpers[i]
      ensures Valid()
      ensures Helpers() == old(Helpers())[i := if PlayableOnTexture(old(helpers[i].mediaType))
                                               then H.Pause(old(helpers[i].Snap())).helper
                                               else old(helpers[i].Snap())]
    {
      if helpers[i].IsPlayableOnTexture() {
        var _ := helpers[i].Pause();
      }
      OnlySlotChanged(i);
    }

    method OnBackPressed()
      requires Valid()
      modifies HelperSet()
      ensures Valid()
      ensures Helpers() == S.PauseAll(old(Helpers()), -1)
    {
      PauseAll(-1);
    }

    /** Slot i resumes: it plays from its stored seek (from the start after the end was reached). */
    method ResumeSlot(i: int) returns (launch: Option<H.Launch>)
      requires Valid() && IsSlot(i)
      modifies helpers[i], seekPosition
      ensures Valid()
      ensures var played := H.Play(old(helpers[i].Snap()), playFullscreenVideo,
                                   if old(helpers[i].state) == ReachedEnd then 0 else old(seekPosition[i]));
              && Helpers() == old(Helpers())[i := played.helper] && launch == played.launch
              && seekPosition[..] == old(seekPosition[..])[i := H.CURRENT_POSITION]
    {
      if helpers[i].GetStatus() == ReachedEnd {
        seekPosition[i] := 0;
      }
      var _, started := helpers[i].Play(playFullscreenVideo, seekPosition[i]);
      OnlySlotChanged(i);
      launch := started;
      seekPosition[i] := H.CURRENT_POSITION;
    }

    /** The reaction to a tap inside slot i's target. */
    method TapSlot(i: int) returns (launch: Option<H.Launch>)
      requires Valid() && IsSlot(i)
      modifies HelperSet(), seekPosition
      ensures Valid()
      ensures var r := S.TapSlot(old(Helpers()), old(seekPosition[..]), playFullscreenVideo, i);
              Helpers() == r.helpers && seekPosition[..] == r.seekPosition && launch == r.launch
    {
      var h := helpers[i];
      launch := None;
      if h.IsPlayableOnTexture() {
        launch := TapOnTexture(i);
      } else if h.IsPlayableFullscreen() {
        var _, started := h.Play(true, H.CURRENT_POSITION);
        OnlySlotChanged(i);
        launch := started;
      }
    }

    /** The reaction to a tap inside the target of slot i, which plays on texture. */
    method TapOnTexture(i: int) returns (launch: Option<H.Launch>)
      requires Valid() && IsSlot(i) && PlayableOnTexture(helpers[i].mediaType)
      modifies HelperSet(), seekPosition
      ensures Valid()
      ensures var r := S.TapSlot(old(Helpers()), old(seekPosition[..]), playFullscreenVideo, i);
              Helpers() == r.helpers && seekPosition[..] == r.seekPosition && launch == r.launch
    {
      var h := helpers[i];
      launch := None;
      var status := h.GetStatus();
      if status == Paused || status == Ready || status == Stopped || status == ReachedEnd {
        PauseAll(i);
        launch := ResumeSlot(i);
      } else if status == Playing {
        var _ := h.Pause();
        OnlySlotChanged(i);
      }
    }

    /**
     * onSingleTapConfirmed, with the hit test of each slot's target given as `hits`: the
     * lowest hit slot is acted on, and only when a renderer exists.
     */
    method OnSingleTapConfirmed(hits: seq<bool>) returns (handled: bool, launch: Option<H.Launch>)
      requires Valid() && |hits| == NUM_TARGETS
      modifies HelperSet(), seekPosition
      ensures Valid()
      ensures var r := S.Tap(old(Model()), renderer != null, hits);
              Helpers() == r.helpers && seekPosition[..] == r.seekPosition
              && handled == r.handled && launch == r.launch
    {
      handled := false;
      launch := None;
      var i := 0;
      while i < NUM_TARGETS
        invariant 0 <= i <= NUM_TARGETS
        invariant forall j :: 0 <= j < i ==> !(renderer != null && hits[j])
      {
        if renderer != null && hits[i] {
          S.TapActsOnLowestHit(old(Model()), hits, i);
          launch := TapSlot(i);
          handled := true;
          return;
        }
        i := i + 1;
      }
      assert renderer != null ==> S.FirstHit(hits).None?;
    }

    /** One slot of onPause: save an on-texture slot's position and playing flag, then unload. */
    method PauseSlot(i: int)
      requires Valid() && IsSlot(i)
      modifies helpers[i], seekPosition, wasPlaying
      ensures Valid()
      ensures Helpers() == old(Helpers())[i := H.Unload(old(helpers[i].Snap())).helper]
      ensures if PlayableOnTexture(old(helpers[i].mediaType))
              then seekPosition[i] == H.CurrentPosition(old(helpers[i].Snap()))
                   && wasPlaying[i] == (old(helpers[i].state) == Playing)
              else seekPosition[i] == old(seekPosition[i]) && wasPlaying[i] == old(wasPlaying[i])
      ensures forall j :: IsSlot(j) && j != i ==>
                seekPosition[j] == old(seekPosition[j]) && wasPlaying[j] == old(wasPlaying[j])
    {
      if helpers[i].IsPlayableOnTexture() {
        seekPosition[i] := helpers[i].GetCurrentPosition();
        wasPlaying[i] := helpers[i].GetStatus() == Playing;
      }
      var _ := helpers[i].Unload();
      OnlySlotChanged(i);
    }

    /** The loop of onPause: every slot saved and unloaded. */
    method SaveAndUnloadAll()
      requires Valid()
      modifies HelperSet(), seekPosition, wasPlaying
      ensures Valid()
      ensures forall j :: IsSlot(j) ==>
                && Helpers()[j] == H.Unload(old(Helpers())[j]).helper
                && (if PlayableOnTexture(old(Helpers())[j].mediaType)
                    then seekPosition[j] == H.CurrentPosition(old(Helpers())[j])
                         && wasPlaying[j] == (old(Helpers())[j].state == Playing)
                    else seekPosition[j] == old(seekPosition[j]) && wasPlaying[j] == old(wasPlaying[j]))
    {
      ghost var before := Helpers();
      for i := 0 to NUM_TARGETS
        invariant Valid()
        invariant forall j :: 0 <= j < i ==>
                    && Helpers()[j] == H.Unload(before[j]).helper
                    && (if PlayableOnTexture(before[j].mediaType)
                        then seekPosition[j] == H.CurrentPosition(before[j])
                             && wasPlaying[j] == (before[j].state == Playing)
                        else seekPosition[j] == old(seekPosition[j]) && wasPlaying[j] == old(wasPlaying[j]))
        invariant forall j :: i <= j < NUM_TARGETS ==>
                    && Helpers()[j] == before[j]
                    && seekPosition[j] == old(seekPosition[j]) && wasPlaying[j] == old(wasPlaying[j])
      {
        PauseSlot(i);
      }
    }

    method OnPause()
      requires Valid()
      modifies this, HelperSet(), seekPosition, wasPlaying
      ensures Valid() && renderer == old(renderer)
      ensures Model() == S.OnPause(old(Model()))
    {
      SaveAndUnloadAll();
      returningFromFullScreen := false;
      S.OnPauseUnique(old(Model()), Model());
    }

    /** One slot of onDestroy: the helper releases its player and its surface texture. */
    method ReleaseSlot(i: int)
      requires Valid() && IsSlot(i)
      modifies helpers[i]
      ensures Valid()
      ensures Helpers() == old(Helpers())[i := H.UnInit(old(helpers[i].Snap()))]
    {
      helpers[i].UnInit();
      OnlySlotChanged(i);
    }

    /** onDestroy: every helper is released; afterwards none plays and none holds a surface. */
    method OnDestroy()
      requires Valid()
      modifies HelperSet()
      ensures Valid()
      ensures forall j :: IsSlot(j) ==>
                && Helpers()[j] == H.UnInit(old(Helpers())[j])
                && !H.IsPlaying(Helpers()[j]) && !Helpers()[j].hasSurface
    {
      for i := 0 to NUM_TARGETS
        invariant Valid()
        invariant forall j :: 0 <= j < i ==> Helpers()[j] == H.UnInit(old(Helpers())[j])
        invariant forall j :: i <= j < NUM_TARGETS ==> Helpers()[j] == old(Helpers())[j]
      {
        ReleaseSlot(i);
      }
    }

    /** The loop of onResume: every slot's movie requested again from its stored seek. */
    method RequestReloads()
      requires Valid() && renderer != null
      modifies RequestArrays()
      ensures Valid()
      ensures unchanged(this, helpers, seekPosition, wasPlaying, movieName) && unchanged(HelperSet())
      ensures forall i :: IsSlot(i) ==>
                && renderer.movieName[i] == movieName[i]
                && renderer.seekPosition[i] == seekPosition[i] && renderer.seek[i] == seekPosition[i]
                && renderer.shouldPlayImmediately[i] == (returningFromFullScreen && wasPlaying[i])
                && renderer.loadRequested[i]
    {
      RequestAll(renderer, movieName[..], seekPosition[..], returningFromFullScreen, wasPlaying[..]);
    }

    /** The loop itself, over the renderer's arrays and the activity's values. */
    static method RequestAll(r: Renderer.VideoRenderer, names: seq<string>, seeks: seq<int>,
                             returning: bool, playing: seq<bool>)
      requires r.Valid() && |names| == NUM_TARGETS && |seeks| == NUM_TARGETS && |playing| == NUM_TARGETS
      modifies r.movieName, r.seekPosition, r.seek, r.shouldPlayImmediately, r.loadRequested
      ensures forall i :: IsSlot(i) ==>
                && r.movieName[i] == names[i]
                && r.seekPosition[i] == seeks[i] && r.seek[i] == seeks[i]
                && r.shouldPlayImmediately[i] == (returning && playing[i])
                && r.loadRequested[i]
    {
      for i := 0 to NUM_TARGETS
        invariant forall j :: 0 <= j < i ==>
                    && r.movieName[j] == names[j]
                    && r.seekPosition[j] == seeks[j] && r.seek[j] == seeks[j]
                    && r.shouldPlayImmediately[j] == (returning && playing[j])
                    && r.loadRequested[j]
      {
        if !returning {
          r.RequestLoad(i, names[i], seeks[i], false);
        } else {
          r.RequestLoad(i, names[i], seeks[i], playing[i]);
        }
      }
    }

    /** onResume: with a renderer, request every slot's movie again; the returning flag is cleared. */
    method OnResume()
      requires Valid()
      modifies this, RequestArrays()
      ensures Valid() && renderer == old(renderer)
      ensures Model() == S.OnResume(old(Model()), renderer != null).screen
      ensures renderer != null ==> forall i :: IsSlot(i) ==>
                var request := S.OnResume(old(Model()), true).requests[i];
                && renderer.movieName[i] == request.movieName
                && renderer.seekPosition[i] == request.seekPosition
                && renderer.seek[i] == request.seekPosition
                && renderer.shouldPlayImmediately[i] == request.playImmediately
                && renderer.loadRequested[i]
    {
      if renderer != null {
        RequestReloads();
      }
      returningFromFullScreen := false;
    }

    /** The loop of onActivityResult: the slot showing `movie` takes over the returned position. */
    method TakeOverPosition(movie: string, position: int)
      requires Shape()
      modifies seekPosition, wasPlaying
      ensures forall j :: IsSlot(j) ==>
                if movieName[j] == movie then seekPosition[j] == position && !wasPlaying[j]
                else seekPosition[j] == old(seekPosition[j]) && wasPlaying[j] == old(wasPlaying[j])
    {
      for i := 0 to NUM_TARGETS
        invariant forall j :: 0 <= j < i ==>
                    if movieName[j] == movie then seekPosition[j] == position && !wasPlaying[j]
                    else seekPosition[j] == old(seekPosition[j]) && wasPlaying[j] == old(wasPlaying[j])
        invariant forall j :: i <= j < NUM_TARGETS ==>
                    seekPosition[j] == old(seekPosition[j]) && wasPlaying[j] == old(wasPlaying[j])
      {
        if movie == movieName[i] {
          seekPosition[i] := position;
          wasPlaying[i] := false;
        }
      }
    }

    /** onActivityResult, with the returned movie name and position as parameters. */
    method OnActivityResult(requestCode: int, resultCode: int, movie: string, position: int)
      requires Valid()
      modifies this, seekPosition, wasPlaying
      ensures Valid() && renderer == old(renderer)
      ensures Model() == S.OnActivityResult(old(Model()), requestCode, resultCode, movie, position)
    {
      if requestCode == S.FULLSCREEN_REQUEST {
        if resultCode == S.RESULT_OK {
          returningFromFullScreen := true;
          TakeOverPosition(movie, position);
        }
      }
    }

    /** One slot of viewFullScreen: a PLAYING slot is paused and asked to play full screen. */
    method FullScreenSlot(i: int) returns (launch: Option<H.Launch>)
      requires Valid() && IsSlot(i)
      modifies helpers[i]
      ensures Valid()
      ensures var step := S.ViewFullScreenSlot(old(helpers[i].Snap()), seekPosition[i]);
              Helpers() == old(Helpers())[i := step.helper] && launch == step.launch
    {
      launch := None;
      if helpers[i].GetStatus() == Playing {
        var _ := helpers[i].Pause();
        var _, started := helpers[i].Play(true, seekPosition[i]);
        launch := started;
      }
      OnlySlotChanged(i);
    }

    /** The loop of viewFullScreen. */
    method MoveToFullScreen() returns (launches: seq<Option<H.Launch>>)
      requires Valid()
      modifies HelperSet()
      ensures Valid() && |launches| == NUM_TARGETS
      ensures forall j :: IsSlot(j) ==>
                var step := S.ViewFullScreenSlot(old(Helpers())[j], seekPosition[j]);
                Helpers()[j] == step.helper && launches[j] == step.launch
    {
      launches := [];
      for i := 0 to NUM_TARGETS
        invariant Valid() && |launches| == i
        invariant forall j :: 0 <= j < i ==>
                    var step := S.ViewFullScreenSlot(old(Helpers())[j], seekPosition[j]);
                    Helpers()[j] == step.helper && launches[j] == step.launch
        invariant forall j :: i <= j < NUM_TARGETS ==> Helpers()[j] == old(Helpers())[j]
      {
        var launch := FullScreenSlot(i);
        launches := launches + [launch];
      }
    }

    /** viewFullScreen: toggle full-screen mode and move every PLAYING slot to full screen. */
    method ViewFullScreen() returns (launches: seq<Option<H.Launch>>)
      requires Valid()
      modifies this, HelperSet()
      ensures Valid() && renderer == old(renderer)
      ensures var r := S.ViewFullScreen(old(Model()));
              Model() == r.screen && launches == r.launches
    {
      playFullscreenVideo := !playFullscreenVideo;
      launches := MoveToFullScreen();
      ghost var r := S.ViewFullScreen(old(Model()));
      assert forall j :: 0 <= j < NUM_TARGETS ==> Helpers()[j] == r.screen.helpers[j];
    }
  }
}
