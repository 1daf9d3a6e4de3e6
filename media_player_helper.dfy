/**
 * MediaPlayerHelper as an object: its fields are updated in place by the operations and
 * callbacks, each proved to leave exactly the record HelperSpec gives for it.
 */
module PlayerHelper {
  import opened Options
  import opened MediaStates
  import opened MediaTypes
  import Spec = HelperSpec

  class MediaPlayerHelper {
    var state: MediaState
    var mediaType: MediaType
    var player: Spec.PlatformPlayer
    var hasSurface: bool
    var movieName: string
    var seekPosition: int
    var playImmediately: bool

    /** The helper's fields as a value. */
    function Snap(): Spec.Helper
      reads this
    {
      Spec.Helper(state, mediaType, player, hasSurface, movieName, seekPosition, playImmediately)
    }

    ghost predicate Valid()
      reads this
    {
      Spec.Inv(Snap())
    }

    /** The field initialisers (init() only creates the locks). */
    constructor ()
      ensures Snap() == Spec.INITIAL && Valid()
    {
      state := NotReady;
      mediaType := Unknown;
      player := Spec.NoPlayer;
      hasSurface := false;
      movieName := "";
      seekPosition := Spec.CURRENT_POSITION;
      playImmediately := false;
      new;
      Spec.InitialSatisfiesInv();
    }

    predicate IsPlayableOnTexture()
      reads this
      ensures IsPlayableOnTexture() <==> PlayableOnTexture(Snap().mediaType)
      ensures IsPlayableOnTexture() && Valid() ==> player.Player?
    {
      mediaType == OnTexture || mediaType == OnTextureFullscreen
    }

    predicate IsPlayableFullscreen()
      reads this
      ensures IsPlayableFullscreen() <==> PlayableFullscreen(Snap().mediaType)
    {
      mediaType == Fullscreen || mediaType == OnTextureFullscreen
    }

    function GetStatus(): (s: MediaState)
      reads this
      ensures s == Snap().state
      ensures s == Playing && Valid() ==> IsPlayableOnTexture()
    {
      state
    }

    method Load(fileName: string, requestedType: MediaType, playOnTextureImmediately: bool,
                seekPos: int, assets: set<string>) returns (result: bool)
      requires Valid()
      modifies this
      ensures Valid()
      ensures Spec.Step(Snap(), result, None)
              == Spec.Load(old(Snap()), fileName, requestedType, playOnTextureImmediately, seekPos, assets)
    {
      var canBeOnTexture := false;
      var canBeFullscreen := false;
      result := false;
      if state == Ready || player.Player? {
        // already loaded
      } else {
        var textureOnly := requestedType == OnTexture;
        var isOnTextureWithFullscreen := requestedType == OnTextureFullscreen;
        if textureOnly || isOnTextureWithFullscreen {
          if hasSurface {
            player := Spec.FRESH_PLAYER;
            if fileName !in assets {
              state := Error;
              return false;
            }
            canBeOnTexture := true;
            playImmediately := playOnTextureImmediately;
          }
        }
        if requestedType == Fullscreen || requestedType == OnTextureFullscreen {
          canBeFullscreen := true;
        }
        movieName := fileName;
        seekPosition := seekPos;
        if canBeFullscreen && canBeOnTexture {
          mediaType := OnTextureFullscreen;
        } else if canBeFullscreen {
          mediaType := Fullscreen;
          state := Ready;
        } else if canBeOnTexture {
          mediaType := OnTexture;
        } else {
          mediaType := Unknown;
        }
        result := true;
      }
    }

    method Unload() returns (result: bool)
      modifies this
      ensures Valid()
      ensures Spec.Step(Snap(), result, None) == Spec.Unload(old(Snap()))
    {
      if player.Player? {
        player := Spec.NoPlayer;
      }
      state := NotReady;
      mediaType := Unknown;
      result := true;
    }

    method UnInit()
      modifies this
      ensures Valid()
      ensures Snap() == Spec.UnInit(old(Snap()))
    {
      var _ := Unload();
      hasSurface := false;
    }

    method SetupSurfaceTexture() returns (result: bool)
      requires Valid()
      modifies this
      ensures Valid()
      ensures Spec.Step(Snap(), result, None) == Spec.SetupSurfaceTexture(old(Snap()))
    {
      hasSurface := true;
      result := true;
    }

    method GetVideoWidth() returns (width: int)
      ensures width == Spec.VideoWidth(Snap())
    {
      if !IsPlayableOnTexture() {
        return -1;
      }
      if state == NotReady || state == Error {
        return -1;
      }
      width := -1;
      if player.Player? {
        width := player.width;
      }
    }

    method GetVideoHeight() returns (height: int)
      ensures height == Spec.VideoHeight(Snap())
    {
      if !IsPlayableOnTexture() {
        return -1;
      }
      if state == NotReady || state == Error {
        return -1;
      }
      height := -1;
      if player.Player? {
        height := player.height;
      }
    }

    method GetCurrentPosition() returns (position: int)
      ensures position == Spec.CurrentPosition(Snap())
    {
      if !IsPlayableOnTexture() {
        return -1;
      }
      if state == NotReady || state == Error {
        return -1;
      }
      position := -1;
      if player.Player? {
        position := player.position;
      }
    }

    /** isPlaying, corrected to report false when there is no player. */
    method IsPlaying() returns (playing: bool)
      ensures playing == Spec.IsPlaying(Snap())
      ensures playing ==> player.Player?
    {
      playing := player.Player? && player.playing;
    }

    method Play(fullScreen: bool, seekPos: int) returns (result: bool, launch: Option<Spec.Launch>)
      requires Valid()
      modifies this
      ensures Valid()
      ensures Spec.Step(Snap(), result, launch) == Spec.Play(old(Snap()), fullScreen, seekPos)
    {
      launch := None;
      if fullScreen {
        if !IsPlayableFullscreen() {
          return false, None;
        }
        var seek: int;
        if IsPlayableOnTexture() {
          if player.NoPlayer? {
            return false, None;
          }
          var at := player.position;
          player := player.(playing := false);
          if seekPos != Spec.CURRENT_POSITION {
            seek := seekPos;
          } else {
            seek := at;
          }
        } else {
          if seekPos != Spec.CURRENT_POSITION {
            seek := seekPos;
          } else {
            seek := 0;
          }
        }
        return true, Some(Spec.Launch(movieName, seek));
      } else {
        if !IsPlayableOnTexture() {
          return false, None;
        }
        if state == NotReady || state == Error {
          return false, None;
        }
        if player.Player? {
          if seekPos != Spec.CURRENT_POSITION {
            player := player.(position := seekPos);
          } else if state == ReachedEnd {
            player := player.(position := 0);
          }
          player := player.(playing := true);
        }
        state := Playing;
        return true, None;
      }
    }

    method Pause() returns (result: bool)
      requires Valid()
      modifies this
      ensures Valid()
      ensures Spec.Step(Snap(), result, None) == Spec.Pause(old(Snap()))
    {
      if !IsPlayableOnTexture() {
        return false;
      }
      if state == NotReady || state == Error {
        return false;
      }
      result := false;
      if player.Player? {
        if player.playing {
          player := player.(playing := false);
          state := Paused;
          result := true;
        }
      }
    }

    method Stop() returns (result: bool)
      requires Valid()
      modifies this
      ensures Valid()
      ensures Spec.Step(Snap(), result, None) == Spec.Stop(old(Snap()))
    {
      if !IsPlayableOnTexture() {
        return false;
      }
      if state == NotReady || state == Error {
        return false;
      }
      result := false;
      if player.Player? {
        state := Stopped;
        player := player.(playing := false);
        result := true;
      }
    }

    method SeekTo(position: int) returns (result: bool)
      requires Valid()
      modifies this
      ensures Valid()
      ensures Spec.Step(Snap(), result, None) == Spec.SeekTo(old(Snap()), position)
    {
      if !IsPlayableOnTexture() {
        return false;
      }
      if state == NotReady || state == Error {
        return false;
      }
      result := false;
      if player.Player? {
        player := player.(position := position);
        result := true;
      }
    }

    /** Platform callback once the player is prepared; it reports the frame size. */
    method OnPrepared(width: int, height: int)
      requires Valid()
      modifies this
      ensures Valid()
      ensures Snap() == Spec.OnPrepared(old(Snap()), width, height)
    {
      if player.Player? {
        player := player.(width := width, height := height);
      }
      state := Ready;
      if playImmediately {
        var _, _ := Play(false, seekPosition);
      }
      seekPosition := 0;
    }

    method OnCompletion()
      requires Valid()
      modifies this
      ensures Valid()
      ensures Snap() == Spec.OnCompletion(old(Snap()))
    {
      state := ReachedEnd;
      if player.Player? {
        player := player.(playing := false);
      }
    }

    /** Platform callback for an error; `fromCurrentPlayer` says it comes from this helper's player. */
    method OnError(fromCurrentPlayer: bool) returns (handled: bool)
      requires Valid()
      modifies this
      ensures Valid()
      ensures Spec.Step(Snap(), handled, None) == Spec.OnError(old(Snap()), fromCurrentPlayer)
    {
      if fromCurrentPlayer && player.Player? {
        var _ := Unload();
        state := Error;
        return true;
      }
      return false;
    }
  }
}
