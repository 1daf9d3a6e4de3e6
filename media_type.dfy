/** The four playback capabilities a loaded video can have, and their numeric codes. */
module MediaTypes {

  datatype MediaType = OnTexture | Fullscreen | OnTextureFullscreen | Unknown

  /** The code each capability is constructed with; `getNumericType` returns it unchanged. */
  function NumericType(t: MediaType): (code: int)
    ensures 0 <= code <= 3
  {
    match t
    case OnTexture => 0
    case Fullscreen => 1
    case OnTextureFullscreen => 2
    case Unknown => 3
  }

  /** The capability with a given code, for codes 0..3. */
  function TypeOfCode(code: int): (t: MediaType)
    requires 0 <= code <= 3
    ensures NumericType(t) == code
  {
    if code == 0 then OnTexture
    else if code == 1 then Fullscreen
    else if code == 2 then OnTextureFullscreen
    else Unknown
  }

  /** Distinct capabilities have distinct codes. */
  lemma NumericTypeInjective(s: MediaType, t: MediaType)
    ensures NumericType(s) == NumericType(t) ==> s == t
  {
  }

  /** The video can be rendered onto the marker's texture. */
  predicate PlayableOnTexture(t: MediaType)
    ensures PlayableOnTexture(t) <==> t != Unknown && t != Fullscreen
  {
    t == OnTexture || t == OnTextureFullscreen
  }

  /** The video can be handed over to the full-screen player. */
  predicate PlayableFullscreen(t: MediaType)
    ensures PlayableFullscreen(t) <==> t != Unknown && t != OnTexture
  {
    t == Fullscreen || t == OnTextureFullscreen
  }

  /** Only the combined capability is both; UNKNOWN is neither. */
  lemma CapabilityTable(t: MediaType)
    ensures PlayableOnTexture(t) && PlayableFullscreen(t) <==> t == OnTextureFullscreen
    ensures PlayableOnTexture(t) || PlayableFullscreen(t) <==> t != Unknown
  {
  }
}
