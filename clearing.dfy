/** The tri-state clearing mode: unset, on or off. */
module ClearingMode {
  import opened SessionOptions

  datatype ClearingState = Unset | On | Off

  /** The state a session starts in: unset, or the command line's `clear:` default. */
  function InitialClearing(clear: Option<bool>): (s: ClearingState)
    ensures s == Unset <==> clear.None?
    ensures IsClearing(s) <==> clear == Some(true)
  {
    match clear
    case None => Unset
    case Some(flag) => if flag then On else Off
  }

  /** `clearing(flag)`: the configuration script's call always overrides. */
  function SetClearing(s: ClearingState, flag: bool): (s': ClearingState)
    ensures s' != Unset
    ensures IsClearing(s') <==> flag
  {
    if flag then On else Off
  }

  /** `clearing?`: true only in the `On` state; `Unset` and `Off` both read false. */
  predicate IsClearing(s: ClearingState)
  {
    s == On
  }

  /** A run of `clearing` calls, applied in order. */
  function SetClearingAll(s: ClearingState, flags: seq<bool>): ClearingState
    decreases flags
  {
    if flags == [] then s else SetClearingAll(SetClearing(s, flags[0]), flags[1..])
  }

  /** Last write wins: after one or more `clearing` calls, `clearing?`
      reports the flag of the last one, whatever the state before. */
  lemma {:induction false} LastClearingWins(s: ClearingState, flags: seq<bool>)
    requires flags != []
    ensures SetClearingAll(s, flags) != Unset
    ensures IsClearing(SetClearingAll(s, flags)) <==> flags[|flags| - 1]
    decreases flags
  {
    if |flags| > 1 {
      LastClearingWins(SetClearing(s, flags[0]), flags[1..]);
    }
  }

  /** Repeating a `clearing` call changes nothing. */
  lemma SetClearingIdempotent(s: ClearingState, flag: bool)
    ensures SetClearing(SetClearing(s, flag), flag) == SetClearing(s, flag)
  {
  }
}
