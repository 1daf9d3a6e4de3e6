/**
 * The life cycle of one video (MediaPlayerHelper) as values: the helper's fields as a
 * record, and one function per operation giving the new record and the return value.
 * The platform media player is abstracted to whether it exists, whether it is playing,
 * and its position and frame size.
 */
module HelperSpec {
  import opened Options
  import opened MediaStates
  import opened MediaTypes

  /** Passed as a seek position: keep the position the player is at. */
  const CURRENT_POSITION: int := -1

  /** What the model keeps of the platform media player object (null is NoPlayer). */
  datatype PlatformPlayer = NoPlayer | Player(playing: bool, position: int, width: int, height: int)

  /** A player just created: not playing, at the start, frame size not known yet. */
  const FRESH_PLAYER: PlatformPlayer := Player(false, 0, 0, 0)

  /** The fields of one helper. `hasSurface` stands for a surface texture being present. */
  datatype Helper = Helper(
    state: MediaState,
    mediaType: MediaType,
    player: PlatformPlayer,
    hasSurface: bool,
    movieName: string,
    seekPosition: int,
    playImmediately: bool)

  /** A helper as its field initialisers leave it. */
  const INITIAL: Helper := Helper(NotReady, Unknown, NoPlayer, false, "", CURRENT_POSITION, false)

  /** A request to start the full-screen activity for a movie at a position. */
  datatype Launch = Launch(movieName: string, seekPosition: int)

  /** What an operation leaves: the new helper, its boolean result, the activity it starts. */
  datatype Step = Step(helper: Helper, ok: bool, launch: Option<Launch>)

  /** The guard that play-on-texture, pause, stop, seekTo and the getters share. */
  predicate Blocked(h: Helper) {
    !PlayableOnTexture(h.mediaType) || h.state == NotReady || h.state == Error
  }

  /**
   * The platform player exists and is playing. This is also isPlaying corrected to treat
   * a helper without a player as not playing.
   */
  predicate IsPlaying(h: Helper)
    ensures IsPlaying(h) ==> h.player.Player?
  {
    h.player.Player? && h.player.playing
  }

  /** The requested capability asks for rendering on the texture. */
  predicate WantsTexture(requested: MediaType) {
    requested == OnTexture || requested == OnTextureFullscreen
  }

  /**
   * What every reachable helper satisfies: an on-texture capability always comes with a
   * player, PLAYING is only reached on texture, and a playing player is never behind
   * the shared guard.
   */
  ghost predicate Inv(h: Helper) {
    && (PlayableOnTexture(h.mediaType) ==> h.player.Player?)
    && (h.state == Playing ==> PlayableOnTexture(h.mediaType))
    && (IsPlaying(h) ==> !Blocked(h))
  }

  lemma InitialSatisfiesInv()
    ensures Inv(INITIAL) && !IsPlaying(INITIAL) && Blocked(INITIAL)
  {
  }

  /** load: works out the capability from the request and whether a surface exists. */
  function Load(h: Helper, fileName: string, requested: MediaType, playOnTextureImmediately: bool,
                seekPosition: int, assets: set<string>): (r: Step)
    ensures r.launch == None
    ensures h.state == Ready || h.player.Player? ==> r == Step(h, false, None)
    ensures r.ok <==> h.state != Ready && h.player.NoPlayer?
                      && !(WantsTexture(requested) && h.hasSurface && fileName !in assets)
    ensures !r.ok && h.state != Ready && h.player.NoPlayer? ==>
              r.helper == h.(state := Error, player := FRESH_PLAYER)
    ensures r.ok ==> r.helper.movieName == fileName && r.helper.seekPosition == seekPosition
                     && r.helper.hasSurface == h.hasSurface
    ensures r.ok && WantsTexture(requested) && h.hasSurface ==>
              && r.helper.mediaType == requested
              && r.helper.state == h.state
              && r.helper.player == FRESH_PLAYER
              && r.helper.playImmediately == playOnTextureImmediately
    ensures r.ok && (requested == Fullscreen || (requested == OnTextureFullscreen && !h.hasSurface)) ==>
              && r.helper.mediaType == Fullscreen && r.helper.state == Ready && r.helper.player == NoPlayer
              && r.helper.playImmediately == h.playImmediately
    ensures r.ok && (requested == Unknown || (requested == OnTexture && !h.hasSurface)) ==>
              && r.helper.mediaType == Unknown && r.helper.state == h.state && r.helper.player == NoPlayer
              && r.helper.playImmediately == h.playImmediately
    ensures Inv(h) ==> Inv(r.helper)
  {
    if h.state == Ready || h.player.Player? then
      Step(h, false, None)
    else
      var canBeOnTexture := WantsTexture(requested) && h.hasSurface;
      if canBeOnTexture && fileName !in assets then
        // the player is created before opening the asset fails
        Step(h.(state := Error, player := FRESH_PLAYER), false, None)
      else
        var canBeFullscreen := requested == Fullscreen || requested == OnTextureFullscreen;
        var withPlayer := if canBeOnTexture
                      then h.(player := FRESH_PLAYER, playImmediately := playOnTextureImmediately)
                      else h;
        var stored := withPlayer.(movieName := fileName, seekPosition := seekPosition);
        var loaded :=
          if canBeFullscreen && canBeOnTexture then stored.(mediaType := OnTextureFullscreen)
          else if canBeFullscreen then stored.(mediaType := Fullscreen, state := Ready)
          else if canBeOnTexture then stored.(mediaType := OnTexture)
          else stored.(mediaType := Unknown);
        Step(loaded, true, None)
  }

  /** unload: drops the player and forgets the capability; always succeeds. */
  function Unload(h: Helper): (r: Step)
    ensures r.ok && r.launch == None
    ensures r.helper.player == NoPlayer && r.helper.state == NotReady && r.helper.mediaType == Unknown
    ensures r.helper.(state := h.state, mediaType := h.mediaType, player := h.player) == h
    ensures Inv(r.helper) && Blocked(r.helper) && !IsPlaying(r.helper)
  {
    Step(h.(player := NoPlayer, state := NotReady, mediaType := Unknown), true, None)
  }

  /** unInit: unloads and drops the surface texture. */
  function UnInit(h: Helper): (r: Helper)
    ensures r.player == NoPlayer && r.state == NotReady && r.mediaType == Unknown && !r.hasSurface
    ensures r.(state := h.state, mediaType := h.mediaType, player := h.player, hasSurface := h.hasSurface) == h
    ensures Inv(r)
  {
    Unload(h).helper.(hasSurface := false)
  }

  /** setupSurfaceTexture: creates the surface texture; it always reports success. */
  function SetupSurfaceTexture(h: Helper): (r: Step)
    ensures r.ok && r.helper.hasSurface && r.helper.(hasSurface := h.hasSurface) == h
    ensures Inv(h) ==> Inv(r.helper)
  {
    Step(h.(hasSurface := true), true, None)
  }

  /** The position an on-texture play leaves the player at. */
  function StartPosition(h: Helper, seekPosition: int): (p: int)
    requires h.player.Player?
    ensures seekPosition != CURRENT_POSITION ==> p == seekPosition
    ensures seekPosition == CURRENT_POSITION && h.state == ReachedEnd ==> p == 0
    ensures seekPosition == CURRENT_POSITION && h.state != ReachedEnd ==> p == h.player.position
  {
    if seekPosition != CURRENT_POSITION then seekPosition
    else if h.state == ReachedEnd then 0
    else h.player.position
  }

  /**
   * play: on texture, seeks and starts the player behind the shared guard; full screen,
   * pauses the texture player and starts the full-screen activity.
   */
  function Play(h: Helper, fullScreen: bool, seekPosition: int): (r: Step)
    ensures !fullScreen ==> r.launch == None && (r.ok <==> !Blocked(h))
    ensures !fullScreen && Blocked(h) ==> r.helper == h
    ensures !fullScreen && !Blocked(h) ==>
              r.helper.state == Playing && r.helper.(state := h.state, player := h.player) == h
    ensures !fullScreen && !Blocked(h) && h.player.Player? ==>
              r.helper.player == h.player.(playing := true, position := StartPosition(h, seekPosition))
    ensures !fullScreen && !Blocked(h) && Inv(h) ==>
              IsPlaying(r.helper) && r.helper.player.position == StartPosition(h, seekPosition)
    ensures fullScreen ==> r.helper.state == h.state && r.helper.(player := h.player) == h
    ensures fullScreen ==> (r.ok <==> PlayableFullscreen(h.mediaType)
                                      && (PlayableOnTexture(h.mediaType) ==> h.player.Player?))
    ensures fullScreen ==> (r.launch.Some? <==> r.ok)
    ensures fullScreen && !r.ok ==> r.helper == h
    ensures fullScreen && r.ok ==>
              r.helper.player == (if PlayableOnTexture(h.mediaType) then h.player.(playing := false)
                                  else h.player)
    ensures fullScreen && r.ok ==> r.launch.value.movieName == h.movieName
    ensures fullScreen && Inv(h) ==> !IsPlaying(r.helper) || !r.ok
    ensures fullScreen && r.ok ==>
              r.launch.value.seekPosition ==
                (if seekPosition != CURRENT_POSITION then seekPosition
                 else if PlayableOnTexture(h.mediaType) then h.player.position
                 else 0)
    ensures Inv(h) ==> Inv(r.helper)
  {
    if fullScreen then
      if !PlayableFullscreen(h.mediaType) then Step(h, false, None)
      else if PlayableOnTexture(h.mediaType) then
        if h.player.NoPlayer? then Step(h, false, None)
        else
          var seek := if seekPosition != CURRENT_POSITION then seekPosition else h.player.position;
          Step(h.(player := h.player.(playing := false)), true, Some(Launch(h.movieName, seek)))
      else
        var seek := if seekPosition != CURRENT_POSITION then seekPosition else 0;
        Step(h, true, Some(Launch(h.movieName, seek)))
    else if Blocked(h) then
      Step(h, false, None)
    else
      // A helper past the guard always has a player (PlayOnTextureHasPlayer). Without one the
      // source's unlocks in its catch blocks would leave the final unlock to throw; that path
      // is unreachable and this branch only keeps the function total.
      var started := if h.player.Player?
                     then h.player.(playing := true, position := StartPosition(h, seekPosition))
                     else NoPlayer;
      Step(h.(state := Playing, player := started), true, None)
  }

  /** pause: behind the shared guard, pauses a playing player and records PAUSED. */
  function Pause(h: Helper): (r: Step)
    ensures r.launch == None
    ensures r.ok <==> !Blocked(h) && IsPlaying(h)
    ensures r.ok ==> r.helper.state == Paused && r.helper.player == h.player.(playing := false)
                     && r.helper.(state := h.state, player := h.player) == h
    ensures !r.ok ==> r.helper == h
    ensures Inv(h) ==> Inv(r.helper) && !IsPlaying(r.helper)
  {
    if Blocked(h) then Step(h, false, None)
    else if IsPlaying(h) then
      Step(h.(state := Paused, player := h.player.(playing := false)), true, None)
    else Step(h, false, None)
  }

  /** stop: behind the shared guard, stops any existing player and records STOPPED. */
  function Stop(h: Helper): (r: Step)
    ensures r.launch == None
    ensures r.ok <==> !Blocked(h) && h.player.Player?
    ensures r.ok ==> r.helper.state == Stopped && r.helper.player == h.player.(playing := false)
                     && r.helper.(state := h.state, player := h.player) == h
    ensures !r.ok ==> r.helper == h
    ensures Inv(h) ==> Inv(r.helper)
  {
    if Blocked(h) then Step(h, false, None)
    else if h.player.Player? then
      Step(h.(state := Stopped, player := h.player.(playing := false)), true, None)
    else Step(h, false, None)
  }

  /** seekTo: behind the shared guard, moves an existing player to `position`. */
  function SeekTo(h: Helper, position: int): (r: Step)
    ensures r.launch == None
    ensures r.ok <==> !Blocked(h) && h.player.Player?
    ensures r.ok ==> r.helper == h.(player := h.player.(position := position))
    ensures !r.ok ==> r.helper == h
    ensures Inv(h) ==> Inv(r.helper)
  {
    if Blocked(h) || h.player.NoPlayer? then Step(h, false, None)
    else Step(h.(player := h.player.(position := position)), true, None)
  }

  /** getCurrentPosition: the player's position, or -1 behind the guard or without a player. */
  function CurrentPosition(h: Helper): (p: int)
    ensures Blocked(h) || h.player.NoPlayer? ==> p == -1
    ensures !Blocked(h) && h.player.Player? ==> p == h.player.position
  {
    if Blocked(h) then -1
    else if h.player.Player? then h.player.position
    else -1
  }

  /** getVideoWidth: the frame width, or -1 behind the guard or without a player. */
  function VideoWidth(h: Helper): (w: int)
    ensures Blocked(h) || h.player.NoPlayer? ==> w == -1
    ensures !Blocked(h) && h.player.Player? ==> w == h.player.width
  {
    if Blocked(h) then -1
    else if h.player.Player? then h.player.width
    else -1
  }

  /** getVideoHeight: the frame height, or -1 behind the guard or without a player. */
  function VideoHeight(h: Helper): (v: int)
    ensures Blocked(h) || h.player.NoPlayer? ==> v == -1
    ensures !Blocked(h) && h.player.Player? ==> v == h.player.height
  {
    if Blocked(h) then -1
    else if h.player.Player? then h.player.height
    else -1
  }

  /**
   * onPrepared: READY, then an immediate on-texture play from the stored seek position
   * when one was requested at load; the stored seek position is reset to 0 either way.
   * The prepared player reports the frame size.
   */
  function OnPrepared(h: Helper, width: int, height: int): (r: Helper)
    ensures r.seekPosition == 0
    ensures !h.playImmediately || !PlayableOnTexture(h.mediaType) ==> r.state == Ready
    ensures h.playImmediately && PlayableOnTexture(h.mediaType) ==> r.state == Playing
    ensures h.playImmediately && PlayableOnTexture(h.mediaType) && Inv(h) ==>
              IsPlaying(r) && r.player.position == StartPosition(h.(state := Ready), h.seekPosition)
    ensures r.mediaType == h.mediaType && r.movieName == h.movieName
    ensures r.hasSurface == h.hasSurface && r.playImmediately == h.playImmediately
    ensures r.player.Player? == h.player.Player?
    ensures h.player.Player? ==> r.player.width == width && r.player.height == height
    ensures !(h.playImmediately && PlayableOnTexture(h.mediaType)) ==>
              r.player == (if h.player.Player? then h.player.(width := width, height := height) else NoPlayer)
    ensures Inv(h) ==> Inv(r)
  {
    var sized := if h.player.Player? then h.player.(width := width, height := height) else NoPlayer;
    var ready := h.(state := Ready, player := sized);
    var started := if h.playImmediately then Play(ready, false, h.seekPosition).helper else ready;
    started.(seekPosition := 0)
  }

  /** onCompletion: REACHED_END; the platform player has stopped. */
  function OnCompletion(h: Helper): (r: Helper)
    ensures r.state == ReachedEnd && !IsPlaying(r)
    ensures r.(state := h.state, player := h.player) == h
    ensures h.player.Player? ==> r.player == h.player.(playing := false)
    ensures h.player.NoPlayer? ==> r.player == NoPlayer
    ensures Inv(h) ==> Inv(r)
  {
    var stopped := if h.player.Player? then h.player.(playing := false) else NoPlayer;
    h.(state := ReachedEnd, player := stopped)
  }

  /**
   * onError: an error from the helper's current player unloads it and records ERROR;
   * an error from any other player is not handled.
   */
  function OnError(h: Helper, fromCurrentPlayer: bool): (r: Step)
    ensures r.launch == None
    ensures r.ok <==> fromCurrentPlayer && h.player.Player?
    ensures r.ok ==> r.helper == Unload(h).helper.(state := Error)
    ensures !r.ok ==> r.helper == h
    ensures Inv(h) ==> Inv(r.helper)
  {
    if fromCurrentPlayer && h.player.Player? then
      Step(Unload(h).helper.(state := Error), true, None)
    else
      Step(h, false, None)
  }

  /** isPlaying as written: it calls the player without checking it exists (None: exception). */
  function IsPlayingAsWritten(h: Helper): (r: Option<bool>)
    ensures r.None? <==> h.player.NoPlayer?
    ensures r.Some? ==> r.value == IsPlaying(h)
  {
    match h.player
    case NoPlayer => None
    case Player(playing, _, _, _) => Some(playing)
  }

  /** Every operation and platform callback a helper can receive. */
  datatype Event =
    | LoadEvent(fileName: string, requested: MediaType, playImmediately: bool, seek: int, assets: set<string>)
    | UnloadEvent
    | UnInitEvent
    | SetupSurfaceEvent
    | PlayEvent(fullScreen: bool, seek: int)
    | PauseEvent
    | StopEvent
    | SeekEvent(position: int)
    | PreparedEvent(width: int, height: int)
    | CompletionEvent
    | ErrorEvent(fromCurrentPlayer: bool)

  function Apply(h: Helper, e: Event): Helper {
    match e
    case LoadEvent(f, t, p, s, a) => Load(h, f, t, p, s, a).helper
    case UnloadEvent => Unload(h).helper
    case UnInitEvent => UnInit(h)
    case SetupSurfaceEvent => SetupSurfaceTexture(h).helper
    case PlayEvent(fs, s) => Play(h, fs, s).helper
    case PauseEvent => Pause(h).helper
    case StopEvent => Stop(h).helper
    case SeekEvent(p) => SeekTo(h, p).helper
    case PreparedEvent(w, v) => OnPrepared(h, w, v)
    case CompletionEvent => OnCompletion(h)
    case ErrorEvent(c) => OnError(h, c).helper
  }

  /** The helper after a sequence of events, in order. */
  function Run(h: Helper, trace: seq<Event>): Helper
    decreases |trace|
  {
    if trace == [] then h else Run(Apply(h, trace[0]), trace[1..])
  }

  lemma ApplyPreservesInv(h: Helper, e: Event)
    requires Inv(h)
    ensures Inv(Apply(h, e))
  {
  }

  /** Inv holds after any sequence of operations and callbacks, in any order. */
  lemma {:induction false} RunPreservesInv(h: Helper, trace: seq<Event>)
    requires Inv(h)
    ensures Inv(Run(h, trace))
    decreases |trace|
  {
    if trace != [] {
      ApplyPreservesInv(h, trace[0]);
      RunPreservesInv(Apply(h, trace[0]), trace[1..]);
    }
  }

  /**
   * The on-texture play never reaches its calls on a missing player: in every reachable
   * helper that passes the guard, the player exists, and playing starts it.
   */
  lemma PlayOnTextureHasPlayer(trace: seq<Event>, seekPosition: int)
    ensures var h := Run(INITIAL, trace);
            !Blocked(h) ==> h.player.Player? && IsPlaying(Play(h, false, seekPosition).helper)
  {
    InitialSatisfiesInv();
    RunPreservesInv(INITIAL, trace);
  }

  /** Once a load has produced a player or READY, a second load is refused until unload. */
  lemma LoadIsOneShot(h: Helper, f: string, t: MediaType, p: bool, s: int, a: set<string>,
                      f2: string, t2: MediaType, p2: bool, s2: int, a2: set<string>)
    requires Load(h, f, t, p, s, a).helper.mediaType != Unknown || !Load(h, f, t, p, s, a).ok
    ensures var h1 := Load(h, f, t, p, s, a).helper;
            Load(h1, f2, t2, p2, s2, a2) == Step(h1, false, None)
  {
  }

  /** After unload, a load goes ahead unless the asset cannot be opened for the texture. */
  lemma UnloadReenablesLoad(h: Helper, f: string, t: MediaType, p: bool, s: int, a: set<string>)
    ensures Load(Unload(h).helper, f, t, p, s, a).ok <==> !(WantsTexture(t) && h.hasSurface && f !in a)
  {
  }

  /** A helper whose player reported an error ignores play, pause, stop and seek until reloaded. */
  lemma ErrorIsInert(h: Helper, seekPosition: int, position: int)
    requires h.player.Player?
    ensures var e := OnError(h, true).helper;
            && e.state == Error && e.player == NoPlayer
            && Play(e, false, seekPosition) == Step(e, false, None)
            && Play(e, true, seekPosition) == Step(e, false, None)
            && Pause(e) == Step(e, false, None)
            && Stop(e) == Step(e, false, None)
            && SeekTo(e, position) == Step(e, false, None)
            && CurrentPosition(e) == -1 && VideoWidth(e) == -1 && VideoHeight(e) == -1
  {
  }

  /** Seeking and then asking for the position gives the position sought. */
  lemma SeekThenPosition(h: Helper, position: int)
    requires SeekTo(h, position).ok
    ensures CurrentPosition(SeekTo(h, position).helper) == position
  {
  }

  /** Playing on texture and then pausing leaves PAUSED at the position play started from. */
  lemma PlayThenPause(h: Helper, seekPosition: int)
    requires Inv(h) && !Blocked(h)
    ensures var played := Play(h, false, seekPosition).helper;
            && Pause(played).ok
            && Pause(played).helper.state == Paused
            && !IsPlaying(Pause(played).helper)
            && CurrentPosition(Pause(played).helper) == StartPosition(h, seekPosition)
  {
  }

  /**
   * isPlaying as written throws on a reachable helper: one whose player reported an error
   * after an on-texture load.
   */
  lemma IsPlayingThrowsAfterError()
    ensures var h := Run(INITIAL, [SetupSurfaceEvent,
                                   LoadEvent("kfc.mp4", OnTextureFullscreen, false, 0, {"kfc.mp4"}),
                                   ErrorEvent(true)]);
            h.state == Error && IsPlayingAsWritten(h) == None && !IsPlaying(h)
  {
  }
}
