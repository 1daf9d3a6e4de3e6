/** The seven playback states of one video and their numeric codes. */
module MediaStates {
  import opened Options

  datatype MediaState = ReachedEnd | Paused | Stopped | Playing | Ready | NotReady | Error

  /** The code each state is constructed with; `getNumericType` returns it unchanged. */
  function NumericType(s: MediaState): (code: int)
    ensures 0 <= code <= 6
  {
    match s
    case ReachedEnd => 0
    case Paused => 1
    case Stopped => 2
    case Playing => 3
    case Ready => 4
    case NotReady => 5
    case Error => 6
  }

  /** The state whose code is `code`, if any: the inverse of NumericType. */
  function StateOfCode(code: int): (r: Option<MediaState>)
    ensures r.Some? <==> 0 <= code <= 6
    ensures r.Some? ==> NumericType(r.value) == code
  {
    if code == 0 then Some(ReachedEnd)
    else if code == 1 then Some(Paused)
    else if code == 2 then Some(Stopped)
    else if code == 3 then Some(Playing)
    else if code == 4 then Some(Ready)
    else if code == 5 then Some(NotReady)
    else if code == 6 then Some(Error)
    else None
  }

  /** Distinct states have distinct codes. */
  lemma NumericTypeInjective(s: MediaState, t: MediaState)
    ensures NumericType(s) == NumericType(t) ==> s == t
  {
  }

  /** Decoding the code of a state gives that state back. */
  lemma StateOfCodeRoundTrip(s: MediaState)
    ensures StateOfCode(NumericType(s)) == Some(s)
  {
  }
}
