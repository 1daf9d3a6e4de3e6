# VideoAR playback core in Dafny

VideoAR is an Android augmented-reality app. It recognises eight printed brand markers
(KFC, TH True Milk, Nike, Samsung, Puma, Asus, Pepsi, Coca-Cola) and plays a video over
each marker. A video plays either on the marker's texture or in a full-screen player.
This project models the playback bookkeeping behind that:

- **`MediaStates`, `MediaTypes`** (`media_state.dfy`, `media_type.dfy`) model the seven
  playback states and the four playback capabilities, each with its numeric code and the
  decoding back from a code.
- **`Targets`** (`targets.dfy`) models the eight slot indices and the `DEFAULT` index
  returned for an unknown marker.
- **`HelperSpec`** (`helper_spec.dfy`) models one video's life cycle as values.
  - A `Helper` record holds the helper's fields.
  - There is one function per operation and per platform callback.
  - The invariant `Inv` holds after any trace of events (`RunPreservesInv`).
  - The platform media player is abstracted to whether it exists, whether it plays, and
    its position and frame size.
- **`PlayerHelper.MediaPlayerHelper`** (`media_player_helper.dfy`) is the helper as an
  object whose fields its methods update in place. Each method is proved to leave exactly
  the record that the matching `HelperSpec` function gives.
- **`RendererSpec`** (`renderer_spec.dfy`) models the renderer's per-slot decisions as
  values:
  - decoding a status code;
  - mapping a marker name to a slot;
  - choosing what is drawn over a marker (keyframe, video, icon);
  - dispatching deferred loads;
  - the lost-tracking timer of each frame.
- **`Renderer.VideoRenderer`** (`video_renderer.dfy`) is the renderer as an object over
  eight-slot arrays. Each method is proved slot by slot against `RendererSpec`.
- **`ActivitySpec`** (`activity_spec.dfy`) models the activity's decisions over all eight
  slots as values:
  - the single-tap decision table and the "only the first hit slot" rule;
  - `pauseAll`;
  - saving and restoring seek positions in `onPause`, `onResume` and `onActivityResult`;
  - the full-screen toggle.
- **`Activity.MainActivity`** (`main_activity.dfy`) is the activity as an object. It owns
  the eight helpers and shares them with the renderer. Each callback is proved to leave
  the state that `ActivitySpec` gives.

Time is an integer millisecond parameter (`now`). The outcome of the tap hit test is a
parameter too: `hits[i]` says whether the tap fell inside slot `i`'s target. The packaged
assets are a `set<string>` parameter, and a load fails when its file is not in the set.
Starting the full-screen activity is returned as a `Launch` value holding the movie name
and the seek position that would be placed in the intent.

## Model

| member | source | states |
|---|---|---|
| MediaStates.NumericType | app/src/main/java/com/esp/videoar/MediaState.java:4-22 | every state's code lies in 0..6 |
| MediaStates.StateOfCode | app/src/main/java/com/esp/videoar/MediaState.java:4-10 | a code names a state exactly when it lies in 0..6, and the state named has that code |
| MediaStates.NumericTypeInjective | app/src/main/java/com/esp/videoar/MediaState.java:4-10 | distinct states have distinct codes |
| MediaStates.StateOfCodeRoundTrip | app/src/main/java/com/esp/videoar/MediaState.java:15-22 | decoding a state's code gives the state back |
| MediaTypes.NumericType | app/src/main/java/com/esp/videoar/MediaType.java:6-21 | every capability's code lies in 0..3 |
| MediaTypes.TypeOfCode | app/src/main/java/com/esp/videoar/MediaType.java:6-9 | each code in 0..3 names a capability with that code |
| MediaTypes.NumericTypeInjective | app/src/main/java/com/esp/videoar/MediaType.java:6-9 | distinct capabilities have distinct codes |
| MediaTypes.CapabilityTable | app/src/main/java/com/esp/videoar/MediaPlayerHelper.java:159-230 | only ON_TEXTURE_FULLSCREEN plays both on texture and full screen; UNKNOWN plays neither way |
| MediaTypes.PlayableOnTexture | app/src/main/java/com/esp/videoar/MediaPlayerHelper.java:159-161 | every capability but UNKNOWN and FULLSCREEN plays on texture |
| MediaTypes.PlayableFullscreen | app/src/main/java/com/esp/videoar/MediaPlayerHelper.java:228-230 | every capability but UNKNOWN and ON_TEXTURE plays full screen |
| Targets.SlotIndices | app/src/main/java/com/esp/videoar/MainActivity.java:47-58 | the eight slot constants KFC..COCACOLA are exactly 0..7, in order, so they are distinct and fill the arrays |
| Targets.DefaultIsNoSlot | app/src/main/java/com/esp/videoar/MainActivity.java:47-58 | DEFAULT equals NUM_TARGETS, so it is not a valid slot index |
| HelperSpec.IsPlaying | app/src/main/java/com/esp/videoar/MediaPlayerHelper.java:583-585 | a helper reported as playing has a player |
| HelperSpec.InitialSatisfiesInv | app/src/main/java/com/esp/videoar/MediaPlayerHelper.java:27-37 | a new helper keeps the invariant, is not playing and is behind the shared guard |
| HelperSpec.Load | app/src/main/java/com/esp/videoar/MediaPlayerHelper.java:55-135 | refused with no change once READY or once a player exists; otherwise it succeeds unless an on-texture load cannot open its asset, and such a failure leaves ERROR and a new player with every other field unchanged; on success it stores the name and seek and chooses the capability: the requested texture type with a surface (state unchanged), FULLSCREEN and READY for a full-screen request or ON_TEXTURE_FULLSCREEN without a surface, UNKNOWN otherwise, the last two with no player and the play-immediately flag unchanged; keeps the invariant |
| HelperSpec.Unload | app/src/main/java/com/esp/videoar/MediaPlayerHelper.java:138-156 | always succeeds; drops the player and leaves NOT_READY and UNKNOWN; no other field changes |
| HelperSpec.UnInit | app/src/main/java/com/esp/videoar/MediaPlayerHelper.java:48-53 | no player, NOT_READY, UNKNOWN and no surface texture; the movie, seek and play-immediately flag are kept; keeps the invariant |
| HelperSpec.SetupSurfaceTexture | app/src/main/java/com/esp/videoar/MediaPlayerHelper.java:513-522 | reports success and sets only the surface |
| HelperSpec.StartPosition | app/src/main/java/com/esp/videoar/MediaPlayerHelper.java:286-300 | play seeks to the given position, to 0 from REACHED_END when asked for the current position, and otherwise stays where it is |
| HelperSpec.Play | app/src/main/java/com/esp/videoar/MediaPlayerHelper.java:232-317 | on texture: succeeds exactly when the shared guard passes, then leaves PLAYING with the player running from StartPosition (its frame size kept) and every other field kept, and otherwise changes nothing; full screen: succeeds exactly when the helper plays full screen (and has a player if it also plays on texture); it then stops the texture player, keeping its position, and launches the movie at the given position, or at the player's position, or at 0; nothing else changes; keeps the invariant |
| HelperSpec.Pause | app/src/main/java/com/esp/videoar/MediaPlayerHelper.java:319-345 | succeeds exactly when the guard passes and the player is playing; PAUSED and the player stopped on success, no change otherwise; nothing plays afterwards |
| HelperSpec.Stop | app/src/main/java/com/esp/videoar/MediaPlayerHelper.java:348-378 | succeeds exactly when the guard passes and a player exists; STOPPED and the player stopped on success, no change otherwise |
| HelperSpec.SeekTo | app/src/main/java/com/esp/videoar/MediaPlayerHelper.java:404-432 | succeeds exactly when the guard passes and a player exists; only the player's position changes |
| HelperSpec.CurrentPosition | app/src/main/java/com/esp/videoar/MediaPlayerHelper.java:436-457 | the player's position, or -1 behind the guard or without a player |
| HelperSpec.VideoWidth | app/src/main/java/com/esp/videoar/MediaPlayerHelper.java:169-189 | the frame width, or -1 behind the guard or without a player |
| HelperSpec.VideoHeight | app/src/main/java/com/esp/videoar/MediaPlayerHelper.java:192-208 | the frame height, or -1 behind the guard or without a player |
| HelperSpec.OnPrepared | app/src/main/java/com/esp/videoar/MediaPlayerHelper.java:533-541 | READY, or PLAYING from the stored seek when an immediate on-texture play was requested; without that play the player is left unstarted at its position; the stored seek is reset to 0; the prepared player reports the given frame size; the capability, movie, surface texture and play-immediately flag are kept |
| HelperSpec.OnCompletion | app/src/main/java/com/esp/videoar/MediaPlayerHelper.java:546-548 | REACHED_END with the player stopped at its position; every other field is kept |
| HelperSpec.OnError | app/src/main/java/com/esp/videoar/MediaPlayerHelper.java:551-581 | handled exactly for the helper's own existing player: the helper unloads and then records ERROR; an error from any other player changes nothing |
| HelperSpec.IsPlayingAsWritten | app/src/main/java/com/esp/videoar/MediaPlayerHelper.java:583-585 | throws exactly when there is no player, and otherwise agrees with IsPlaying |
| HelperSpec.ApplyPreservesInv | app/src/main/java/com/esp/videoar/MediaPlayerHelper.java:55-581 | every operation and callback keeps the invariant |
| HelperSpec.RunPreservesInv | app/src/main/java/com/esp/videoar/MediaPlayerHelper.java:55-581 | the invariant holds after any sequence of operations and callbacks |
| HelperSpec.PlayOnTextureHasPlayer | app/src/main/java/com/esp/videoar/MediaPlayerHelper.java:275-316 | in every reachable helper past the guard the player exists, so the on-texture play never calls a missing player, and it starts playback |
| HelperSpec.LoadIsOneShot | app/src/main/java/com/esp/videoar/MediaPlayerHelper.java:64-65 | after a load that produced a capability or failed, any second load is refused and changes nothing |
| HelperSpec.UnloadReenablesLoad | app/src/main/java/com/esp/videoar/MediaPlayerHelper.java:138-156 | after unload, a load succeeds exactly unless an on-texture load cannot open its asset |
| HelperSpec.ErrorIsInert | app/src/main/java/com/esp/videoar/MediaPlayerHelper.java:551-581 | after an error from its own player, play in both modes, pause, stop and seek are refused without change, and every getter answers -1 |
| HelperSpec.SeekThenPosition | app/src/main/java/com/esp/videoar/MediaPlayerHelper.java:404-457 | a successful seek is read back by getCurrentPosition |
| HelperSpec.PlayThenPause | app/src/main/java/com/esp/videoar/MediaPlayerHelper.java:275-345 | play on texture and then pause succeeds, leaves PAUSED, not playing, at the position play started from |
| HelperSpec.IsPlayingThrowsAfterError | app/src/main/java/com/esp/videoar/MediaPlayerHelper.java:583-585 | after surface setup, an on-texture load and an error, isPlaying as written throws |
| PlayerHelper.MediaPlayerHelper.constructor | app/src/main/java/com/esp/videoar/MediaPlayerHelper.java:27-46 | the fields start as their initialisers give, and the invariant holds |
| PlayerHelper.MediaPlayerHelper.Load | app/src/main/java/com/esp/videoar/MediaPlayerHelper.java:55-135 | the new fields and the result are those of HelperSpec.Load |
| PlayerHelper.MediaPlayerHelper.Unload | app/src/main/java/com/esp/videoar/MediaPlayerHelper.java:138-156 | the new fields and the result are those of HelperSpec.Unload |
| PlayerHelper.MediaPlayerHelper.UnInit | app/src/main/java/com/esp/videoar/MediaPlayerHelper.java:48-53 | the new fields are those of HelperSpec.UnInit |
| PlayerHelper.MediaPlayerHelper.SetupSurfaceTexture | app/src/main/java/com/esp/videoar/MediaPlayerHelper.java:513-522 | the new fields and the result are those of HelperSpec.SetupSurfaceTexture |
| PlayerHelper.MediaPlayerHelper.IsPlayableOnTexture | app/src/main/java/com/esp/videoar/MediaPlayerHelper.java:159-161 | true exactly when the capability plays on texture; a valid helper that does has a player |
| PlayerHelper.MediaPlayerHelper.GetStatus | app/src/main/java/com/esp/videoar/MediaPlayerHelper.java:163-165 | the helper's state; in a valid helper PLAYING means the capability plays on texture |
| PlayerHelper.MediaPlayerHelper.IsPlayableFullscreen | app/src/main/java/com/esp/videoar/MediaPlayerHelper.java:228-230 | true exactly when the capability plays full screen |
| PlayerHelper.MediaPlayerHelper.GetVideoWidth | app/src/main/java/com/esp/videoar/MediaPlayerHelper.java:169-189 | returns HelperSpec.VideoWidth of the fields |
| PlayerHelper.MediaPlayerHelper.GetVideoHeight | app/src/main/java/com/esp/videoar/MediaPlayerHelper.java:192-208 | returns HelperSpec.VideoHeight of the fields |
| PlayerHelper.MediaPlayerHelper.GetCurrentPosition | app/src/main/java/com/esp/videoar/MediaPlayerHelper.java:436-457 | returns HelperSpec.CurrentPosition of the fields |
| PlayerHelper.MediaPlayerHelper.IsPlaying | app/src/main/java/com/esp/videoar/MediaPlayerHelper.java:583-585 | the corrected isPlaying: true only when a player exists and plays |
| PlayerHelper.MediaPlayerHelper.Play | app/src/main/java/com/esp/videoar/MediaPlayerHelper.java:232-317 | the new fields, the result and the launch are those of HelperSpec.Play |
| PlayerHelper.MediaPlayerHelper.Pause | app/src/main/java/com/esp/videoar/MediaPlayerHelper.java:319-345 | the new fields and the result are those of HelperSpec.Pause |
| PlayerHelper.MediaPlayerHelper.Stop | app/src/main/java/com/esp/videoar/MediaPlayerHelper.java:348-378 | the new fields and the result are those of HelperSpec.Stop |
| PlayerHelper.MediaPlayerHelper.SeekTo | app/src/main/java/com/esp/videoar/MediaPlayerHelper.java:404-432 | the new fields and the result are those of HelperSpec.SeekTo |
| PlayerHelper.MediaPlayerHelper.OnPrepared | app/src/main/java/com/esp/videoar/MediaPlayerHelper.java:533-541 | the new fields are those of HelperSpec.OnPrepared |
| PlayerHelper.MediaPlayerHelper.OnCompletion | app/src/main/java/com/esp/videoar/MediaPlayerHelper.java:546-548 | the new fields are those of HelperSpec.OnCompletion |
| PlayerHelper.MediaPlayerHelper.OnError | app/src/main/java/com/esp/videoar/MediaPlayerHelper.java:551-581 | the new fields and the result are those of HelperSpec.OnError |
| RendererSpec.StatusOf | app/src/main/java/com/esp/videoar/VideoRenderer.java:888-916 | a code in 0..6 decodes to the state with that code; any other code decodes to NOT_READY |
| RendererSpec.StatusOfRoundTrip | app/src/main/java/com/esp/videoar/VideoRenderer.java:888-916 | setStatus with a state's code records that state |
| RendererSpec.GetCurrentTarget | app/src/main/java/com/esp/videoar/VideoRenderer.java:1020-1033 | a slot is returned only for that slot's marker name; DEFAULT is returned exactly for names that name no slot |
| RendererSpec.MarkerName | app/src/main/java/com/esp/videoar/VideoRenderer.java:1022-1029 | the case labels of getCurrentTarget, in slot order: non-empty lower-case names |
| RendererSpec.GetCurrentTargetRoundTrip | app/src/main/java/com/esp/videoar/VideoRenderer.java:1020-1033 | each slot's own marker name maps back to that slot |
| RendererSpec.SelectOverlay | app/src/main/java/com/esp/videoar/VideoRenderer.java:479-717 | keyframe exactly for READY, REACHED_END, NOT_READY and ERROR; an icon exactly for those and PAUSED; icon texture 2 exactly for READY, REACHED_END and PAUSED, 4 exactly for ERROR, 3 exactly for NOT_READY |
| RendererSpec.PlayingShowsOnlyVideo | app/src/main/java/com/esp/videoar/VideoRenderer.java:479-482 | PLAYING, STOPPED and a never-set status show only the video; PAUSED shows the video with icon 2 |
| RendererSpec.Tracking | app/src/main/java/com/esp/videoar/VideoRenderer.java:434-467 | a slot is tracked exactly when its marker name is among the frame's trackables |
| RendererSpec.MarkTrackedAsWritten | app/src/main/java/com/esp/videoar/VideoRenderer.java:440-467 | the marking loop as written throws exactly when some trackable names no slot; otherwise it marks exactly the named slots |
| RendererSpec.UnknownMarkerThrows | app/src/main/java/com/esp/videoar/VideoRenderer.java:458-467 | a frame that sees an unknown marker name makes the loop as written throw |
| RendererSpec.MarkTracked | app/src/main/java/com/esp/videoar/VideoRenderer.java:440-467 | the corrected loop marks exactly the slots named, and agrees with the loop as written whenever that one does not throw |
| RendererSpec.MarkTrackedFromScratch | app/src/main/java/com/esp/videoar/VideoRenderer.java:434-467 | after the reset loop, the marking loop leaves exactly Tracking of the trackables |
| RendererSpec.Drawings | app/src/main/java/com/esp/videoar/VideoRenderer.java:440-482 | every drawing is for a slot whose marker was seen, with the overlay its status selects; there are never more drawings than trackables |
| RendererSpec.DrawingsOnePerTrackable | app/src/main/java/com/esp/videoar/VideoRenderer.java:440-482 | one drawing per trackable exactly when every trackable names a slot; the k-th drawing is then for the k-th trackable's slot |
| RendererSpec.DrawingsCoverRecognised | app/src/main/java/com/esp/videoar/VideoRenderer.java:440-482 | every trackable that names a slot is drawn, with the overlay its status selects |
| RendererSpec.DrawingsAppend | app/src/main/java/com/esp/videoar/VideoRenderer.java:440-482 | the drawings of two runs of trackables are those of the first run followed by those of the second, so drawing order is trackable order |
| RendererSpec.Dispatch | app/src/main/java/com/esp/videoar/VideoRenderer.java:206-210 | a pending load is passed to the helper with the stored parameters and the flag is cleared; without one nothing changes |
| RendererSpec.SurfaceCreated | app/src/main/java/com/esp/videoar/VideoRenderer.java:183-213 | a slot with a helper gets a surface and asks for ON_TEXTURE_FULLSCREEN; a pending load is dispatched to the helper with the slot's stored name, seek and play-immediately flag, and the flag is cleared; without a pending load the helper only gains the surface; a slot without a helper is unchanged; the stored name, seek and flag never change; the helper invariant is kept |
| RendererSpec.SurfaceChanged | app/src/main/java/com/esp/videoar/VideoRenderer.java:216-225 | only a slot with both a pending load and a helper is dispatched |
| RendererSpec.DispatchedOnce | app/src/main/java/com/esp/videoar/VideoRenderer.java:183-225 | after onSurfaceCreated, onSurfaceChanged loads nothing again; a request stays pending only on a slot without a helper |
| RendererSpec.SurfaceCreatedLoadsOnTexture | app/src/main/java/com/esp/videoar/VideoRenderer.java:183-213 | a fresh helper with a pending load of a packaged movie ends up ON_TEXTURE_FULLSCREEN with a new player and the requested name, seek and play-immediately flag |
| RendererSpec.TrackStep | app/src/main/java/com/esp/videoar/VideoRenderer.java:252-278 | tracked: timer reset, and a helper that is not playing plays on texture from the slot's seek; lost: the timer starts, waits up to 20 ms, then pauses the helper and keeps its position as the seek; agrees with the version as written whenever that one does not throw; keeps the helper invariant |
| RendererSpec.TrackStepAsWrittenThrows | app/src/main/java/com/esp/videoar/VideoRenderer.java:252-278 | the reaction as written throws exactly for a tracked helper without a player, or for a slot without a helper lost for more than 20 ms |
| RendererSpec.TrackStepAsWritten | app/src/main/java/com/esp/videoar/VideoRenderer.java:253-275 | as written: a tracked helper with a player is resumed from the stored seek unless playing, and the timer is reset; a first loss records the time; a loss for more than 20 ms pauses the helper and stores its position; a shorter one changes nothing |
| RendererSpec.TrackStepAsWrittenCounterexamples | app/src/main/java/com/esp/videoar/VideoRenderer.java:269-273 | both throws happen on concrete inputs |
| RendererSpec.LostMarkerPauses | app/src/main/java/com/esp/videoar/VideoRenderer.java:262-276 | a marker lost for two frames more than 20 ms apart leaves its video not playing, with the seek at the helper's position |
| RendererSpec.FoundMarkerResumes | app/src/main/java/com/esp/videoar/VideoRenderer.java:252-261 | a marker found again resumes a video that is past the guard and not playing, from the position the seek selects |
| Renderer.VideoRenderer.constructor | app/src/main/java/com/esp/videoar/VideoRenderer.java:126-150 | every slot starts with no helper, an empty name, ON_TEXTURE_FULLSCREEN, seek 0, no immediate play, timer -1 and no pending load |
| Renderer.VideoRenderer.SetVideoPlayerHelper | app/src/main/java/com/esp/videoar/VideoRenderer.java:169-171 | only the given slot's helper is replaced |
| Renderer.VideoRenderer.RequestLoad | app/src/main/java/com/esp/videoar/VideoRenderer.java:173-179 | the slot's name, seek, seek copy and play-immediately flag are set and its load is pending; every other slot is unchanged |
| Renderer.VideoRenderer.SurfaceCreatedAt | app/src/main/java/com/esp/videoar/VideoRenderer.java:188-211 | this slot becomes RendererSpec.SurfaceCreated of its old state; every other slot is unchanged |
| Renderer.VideoRenderer.OnSurfaceCreated | app/src/main/java/com/esp/videoar/VideoRenderer.java:183-213 | every slot becomes RendererSpec.SurfaceCreated of its old state |
| Renderer.VideoRenderer.SurfaceChangedAt | app/src/main/java/com/esp/videoar/VideoRenderer.java:219-223 | this slot becomes RendererSpec.SurfaceChanged of its old state; every other slot is unchanged |
| Renderer.VideoRenderer.OnSurfaceChanged | app/src/main/java/com/esp/videoar/VideoRenderer.java:216-225 | every slot becomes RendererSpec.SurfaceChanged of its old state |
| Renderer.VideoRenderer.SetStatus | app/src/main/java/com/esp/videoar/VideoRenderer.java:888-916 | only the slot's status changes, to the decoded code |
| Renderer.VideoRenderer.SyncStatus | app/src/main/java/com/esp/videoar/VideoRenderer.java:234-248 | every slot with a helper records the helper's state; the others keep theirs |
| Renderer.VideoRenderer.RenderFrame | app/src/main/java/com/esp/videoar/VideoRenderer.java:434-467 | the tracked flags become exactly Tracking of the trackables, and the drawings are Drawings of them |
| Renderer.VideoRenderer.ReactAt | app/src/main/java/com/esp/videoar/VideoRenderer.java:255-277 | this slot becomes RendererSpec.TrackStep of its old state; every other slot is unchanged |
| Renderer.VideoRenderer.ReactToTracking | app/src/main/java/com/esp/videoar/VideoRenderer.java:252-278 | every slot becomes RendererSpec.TrackStep of its old state |
| Renderer.VideoRenderer.OnDrawFrame | app/src/main/java/com/esp/videoar/VideoRenderer.java:229-279 | inactive: nothing changes; active: states synced, tracking and drawings per the frame's trackables, every slot's timer per TrackStep |
| ActivitySpec.MovieNames | app/src/main/java/com/esp/videoar/MainActivity.java:124-131 | one movie per slot |
| ActivitySpec.MovieNamesDistinct | app/src/main/java/com/esp/videoar/MainActivity.java:124-131 | no two slots share a movie |
| ActivitySpec.Created | app/src/main/java/com/esp/videoar/MainActivity.java:113-131 | eight helpers, each keeping the invariant, none playing and all behind the guard |
| ActivitySpec.PauseAll | app/src/main/java/com/esp/videoar/MainActivity.java:333-345 | the excepted slot and every helper that is not playing are unchanged; every other slot ends up not playing, and a playing one ends up PAUSED with its player stopped; no slot changes anything but its state and player |
| ActivitySpec.BackPressedSilencesAll | app/src/main/java/com/esp/videoar/MainActivity.java:348-351 | after the back button, no slot plays |
| ActivitySpec.FirstHit | app/src/main/java/com/esp/videoar/MainActivity.java:151-193 | the lowest hit slot, or none exactly when nothing was hit |
| ActivitySpec.TapSlot | app/src/main/java/com/esp/videoar/MainActivity.java:155-191 | the tap is handled; a resumable on-texture slot plays in the current mode from its seek (0 after REACHED_END), every other slot is as pauseAll leaves it, the seek is consumed and the launch is play's; a PLAYING on-texture slot is paused and nothing else changes; a full-screen-only slot is asked to play full screen at the current position; an on-texture slot in NOT_READY or ERROR, or an UNKNOWN one, changes nothing; every other slot keeps its seek, and its helper is either unchanged or paused; invariants are kept |
| ActivitySpec.Tap | app/src/main/java/com/esp/videoar/MainActivity.java:148-196 | a tap that is not handled changes nothing; invariants are kept |
| ActivitySpec.TapHandledIffHit | app/src/main/java/com/esp/videoar/MainActivity.java:148-196 | a tap is handled exactly when a renderer exists and some slot was hit |
| ActivitySpec.TapActsOnLowestHit | app/src/main/java/com/esp/videoar/MainActivity.java:151-191 | only the lowest hit slot is acted on; every other slot keeps its seek |
| ActivitySpec.TapPlaysOnlyOne | app/src/main/java/com/esp/videoar/MainActivity.java:159-172 | with full-screen mode off, tapping a resumable on-texture slot plays it from its seek (from 0 after REACHED_END), marks the seek as consumed, and leaves no other slot playing |
| ActivitySpec.TapResumesFullscreen | app/src/main/java/com/esp/videoar/MainActivity.java:159-172 | with full-screen mode on, tapping a resumable slot that plays both ways launches its movie from its seek (0 after REACHED_END, the player's position when the seek was consumed), keeps its state, consumes the seek, and leaves no slot playing on texture |
| ActivitySpec.TapPausesPlaying | app/src/main/java/com/esp/videoar/MainActivity.java:173-176 | tapping a playing on-texture slot pauses it |
| ActivitySpec.TapRequestsFullscreen | app/src/main/java/com/esp/videoar/MainActivity.java:177-183 | tapping a full-screen-only slot launches its movie from 0, and no helper or seek changes |
| ActivitySpec.OnActivityResult | app/src/main/java/com/esp/videoar/MainActivity.java:248-270 | request 1 with RESULT_OK: each slot showing the returned movie takes the returned position and is marked not playing, and the returning flag is set; anything else changes nothing |
| ActivitySpec.ActivityResultMatchesOneSlot | app/src/main/java/com/esp/videoar/MainActivity.java:261-266 | with the packaged movies, exactly one slot's seek and playing flag change |
| ActivitySpec.OnPause | app/src/main/java/com/esp/videoar/MainActivity.java:279-308 | every helper is unloaded; on-texture slots save their position and whether they were PLAYING, and the others keep theirs; the returning flag is cleared |
| ActivitySpec.OnPauseUnique | app/src/main/java/com/esp/videoar/MainActivity.java:287-301 | any state that meets onPause's per-slot conditions is OnPause's result |
| ActivitySpec.OnResume | app/src/main/java/com/esp/videoar/MainActivity.java:212-245 | with a renderer, every slot's movie is requested from its stored seek, playing at once exactly when returning from full screen and it was playing; the returning flag is cleared |
| ActivitySpec.PauseResumeKeepsPosition | app/src/main/java/com/esp/videoar/MainActivity.java:232-244 | pause then resume reloads a ready on-texture slot at its player's position, without playing |
| ActivitySpec.FullScreenReturnRoundTrip | app/src/main/java/com/esp/videoar/MainActivity.java:248-270 | pause, full-screen return and resume reload the returned movie's slot at the returned position, without playing |
| ActivitySpec.ViewFullScreenSlot | app/src/main/java/com/esp/videoar/MainActivity.java:617-622 | a PLAYING slot ends up PAUSED if its player was playing (PLAYING otherwise) with its player stopped at its position, and is launched full screen exactly when it can play full screen, at the stored seek or the player's position; only the state and player change; other slots are unchanged |
| ActivitySpec.ViewFullScreen | app/src/main/java/com/esp/videoar/MainActivity.java:613-624 | the mode flag is toggled; only helpers change; no slot that was PLAYING still plays; slots not PLAYING are unchanged and not launched |
| ActivitySpec.ViewFullScreenTwice | app/src/main/java/com/esp/videoar/MainActivity.java:613-624 | pressing twice restores the mode; with seeks consumed, each launch starts at the on-texture player's position |
| Activity.MainActivity.NewHelpers | app/src/main/java/com/esp/videoar/MainActivity.java:118-122 | eight distinct new helpers, each as initialised |
| Activity.MainActivity.constructor | app/src/main/java/com/esp/videoar/MainActivity.java:113-131 | the activity's state is ActivitySpec.Created, without a renderer |
| Activity.MainActivity.InitApplicationAR | app/src/main/java/com/esp/videoar/MainActivity.java:377-406 | a new renderer holding the activity's helpers, with every movie's load pending from 0 without immediate play |
| Activity.MainActivity.HandOver | app/src/main/java/com/esp/videoar/MainActivity.java:393-396 | each slot's helper and movie are handed to the renderer with a load requested from 0 |
| Activity.MainActivity.OnInitARDone | app/src/main/java/com/esp/videoar/MainActivity.java:535-539 | the activity's model is unchanged, and a new active renderer with every load pending |
| Activity.MainActivity.PauseAll | app/src/main/java/com/esp/videoar/MainActivity.java:333-345 | the helpers become ActivitySpec.PauseAll of the old ones |
| Activity.MainActivity.PauseIfOnTexture | app/src/main/java/com/esp/videoar/MainActivity.java:336-343 | only slot i changes: an on-texture helper is paused |
| Activity.MainActivity.OnBackPressed | app/src/main/java/com/esp/videoar/MainActivity.java:348-351 | the helpers become ActivitySpec.PauseAll of the old ones with no exception |
| Activity.MainActivity.ResumeSlot | app/src/main/java/com/esp/videoar/MainActivity.java:163-171 | slot i plays from its seek (0 after REACHED_END) and its seek becomes CURRENT_POSITION; nothing else changes |
| Activity.MainActivity.TapOnTexture | app/src/main/java/com/esp/videoar/MainActivity.java:156-175 | for a slot that plays on texture, the helpers, seeks and launch are those of ActivitySpec.TapSlot |
| Activity.MainActivity.TapSlot | app/src/main/java/com/esp/videoar/MainActivity.java:155-191 | the helpers, seeks and launch are those of ActivitySpec.TapSlot |
| Activity.MainActivity.OnSingleTapConfirmed | app/src/main/java/com/esp/videoar/MainActivity.java:148-196 | the helpers, seeks, result and launch are those of ActivitySpec.Tap |
| Activity.MainActivity.PauseSlot | app/src/main/java/com/esp/videoar/MainActivity.java:288-300 | slot i's helper is unloaded after an on-texture slot saves its position and playing flag; other slots are unchanged |
| Activity.MainActivity.SaveAndUnloadAll | app/src/main/java/com/esp/videoar/MainActivity.java:287-301 | every slot is saved and unloaded as in ActivitySpec.OnPause |
| Activity.MainActivity.OnPause | app/src/main/java/com/esp/videoar/MainActivity.java:279-308 | the model becomes ActivitySpec.OnPause of the old one |
| Activity.MainActivity.ReleaseSlot | app/src/main/java/com/esp/videoar/MainActivity.java:313-318 | only slot i's helper changes, to HelperSpec.UnInit of itself |
| Activity.MainActivity.OnDestroy | app/src/main/java/com/esp/videoar/MainActivity.java:311-331 | every helper is uninitialised: none plays and none keeps a surface |
| Activity.MainActivity.RequestReloads | app/src/main/java/com/esp/videoar/MainActivity.java:232-244 | every slot's movie and seek are requested from the renderer, playing at once exactly when returning from full screen and it was playing; the activity's own state is unchanged |
| Activity.MainActivity.RequestAll | app/src/main/java/com/esp/videoar/MainActivity.java:233-243 | the renderer's slot i is requested with the given movie and seek, playing at once exactly when returning and that slot was playing |
| Activity.MainActivity.OnResume | app/src/main/java/com/esp/videoar/MainActivity.java:212-245 | the model and the renderer's requests are those of ActivitySpec.OnResume |
| Activity.MainActivity.TakeOverPosition | app/src/main/java/com/esp/videoar/MainActivity.java:261-266 | each slot showing the movie takes the position and is marked not playing; others are unchanged |
| Activity.MainActivity.OnActivityResult | app/src/main/java/com/esp/videoar/MainActivity.java:248-270 | the model becomes ActivitySpec.OnActivityResult of the old one |
| Activity.MainActivity.FullScreenSlot | app/src/main/java/com/esp/videoar/MainActivity.java:617-622 | only slot i's helper changes, as ActivitySpec.ViewFullScreenSlot gives, with its launch |
| Activity.MainActivity.MoveToFullScreen | app/src/main/java/com/esp/videoar/MainActivity.java:616-623 | every slot changes and launches as ActivitySpec.ViewFullScreenSlot gives |
| Activity.MainActivity.ViewFullScreen | app/src/main/java/com/esp/videoar/MainActivity.java:613-624 | the model and launches are those of ActivitySpec.ViewFullScreen |

## Left out

- OpenGL drawing is left out, because it is graphics work with no contract beyond the overlay choice modelled by `SelectOverlay`. This covers texture set-up, shaders, matrices, `setVideoDimensions`, `getSceneScaleFactor` and `renderVideoBackground`.
- `isTapOnScreenInsideTarget` is left out, because it is a floating-point ray and plane intersection. Its outcome is the `hits` parameter.
- Vuforia tracker set-up and teardown, the camera, and `onVuforiaUpdate` are left out. They are calls into a closed SDK. The trackables seen in a frame are the `trackables` parameter.
- FullScreenActivity is left out. Starting it is modelled as a returned `Launch`, and its result as the parameters of `OnActivityResult`.
- The `ReentrantLock`s of the helper are left out. They are a concurrency concern, and the model runs sequentially.
- The platform media player's internals are left out: preparation, buffering, `updateVideoData`, `getSurfaceTextureTransformMatrix`, `setVolume`, `getCurrentBufferingPercentage` and `onBufferingUpdate`. Only the player's existence, playing flag, position and frame size are kept. Its asynchronous callbacks are methods the caller invokes.
- `getVideoLength` (MediaPlayerHelper.java) is not part of this model. It is not called from the modelled core.
- `init` and `setActivity` are left out, because they only create locks and store a reference.
- `playVideo` (MainActivity.java:200-203) is left out, because nothing calls it.
- `onInitARDone`'s error path, dialogs, loading animation, orientation requests, `onConfigurationChanged` and `onTouchEvent` are left out. They are Android view plumbing.
- Android's activity life cycle itself is left out. Each callback is a method, and the order in which Android calls them is not enforced.
- `Activity.MainActivity.OnDestroy` does not model that the helper references are set to null afterwards, because the activity's helper array holds non-null helpers. It also leaves out stopping the AR session and clearing the textures.
- `Activity.MainActivity.OnActivityResult` takes the returned movie name as a string. The case where the intent carries no name, which would throw, is not modelled.
- `Renderer.VideoRenderer.OnDrawFrame` reads the clock once per frame, as `now`. The source reads it twice, once when starting the timer and once when comparing.
- `Renderer.VideoRenderer.RenderFrame` models the corrected marking loop. Keyframe texture selection per slot is not modelled.
- `lostTrackingSince` is a Java `long` and positions are Java `int`s. They are modelled as unbounded integers, because no modelled arithmetic comes close to overflow in practice.
- The same helper can be stored in two slots in the source, but such aliasing is not modelled. The class invariants require the eight helpers to be distinct, as `onCreate` creates them.
- The comment next to the lost-tracking check speaks of two seconds, but the code compares against 20 milliseconds. The model follows the code (`LOST_TRACKING_PAUSE_MS`).
- The on-texture `play` calls the player without checking that it exists. This is not a finding: `HelperSpec.PlayOnTextureHasPlayer` proves that every reachable helper past the guard has a player.

## Findings

| source | as written | input that shows it | evidently intended | confidence | as-written member | corrected member |
|---|---|---|---|---|---|---|
| app/src/main/java/com/esp/videoar/VideoRenderer.java:458-467 | a trackable whose name is not one of the eight markers gets DEFAULT (8) from getCurrentTarget, which then indexes the eight-slot arrays and throws | a frame whose trackables are "kfc" and "adidas" | skip names that name no slot | not executed | RendererSpec.UnknownMarkerThrows | RendererSpec.MarkTracked |
| app/src/main/java/com/esp/videoar/VideoRenderer.java:271-273 | the null check guards only the pause; the position is then read from the same slot's helper even when it is null | a slot without a helper, lost at 1000 ms and still lost at 1021 ms; latent: MainActivity hands all eight helpers to the renderer before activating it, and `Activity.MainActivity.Linked` keeps every slot non-null, so the input is not reachable through MainActivity | read the position only when the helper exists | not executed | RendererSpec.TrackStepAsWrittenCounterexamples | RendererSpec.TrackStep |
| app/src/main/java/com/esp/videoar/MediaPlayerHelper.java:583-585 | isPlaying calls the platform player without checking it exists; after onError the player is gone, and onDrawFrame asks a tracked slot's helper whether it plays (VideoRenderer.java:258) | surface set up, kfc.mp4 loaded on texture, then an error from its player, while the marker is tracked | a helper without a player is not playing | not executed | HelperSpec.IsPlayingThrowsAfterError | PlayerHelper.MediaPlayerHelper.IsPlaying |
