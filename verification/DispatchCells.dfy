/** The host-side record of how far the governed call got. */
module DispatchCells {
  datatype DispatchState = NoDispatch | Initializing | Dispatched

  function Rank(s: DispatchState): nat {
    match s
    case NoDispatch => 0
    case Initializing => 1
    case Dispatched => 2
  }

  /** What one `advance` leaves in the cell. */
  function Raise(s: DispatchState, to: DispatchState): DispatchState {
    if Rank(to) > Rank(s) then to else s
  }

  function RaiseAll(s: DispatchState, tos: seq<DispatchState>): DispatchState
    decreases |tos|
  {
    if tos == [] then s else RaiseAll(Raise(s, tos[0]), tos[1..])
  }

  /** After any calls in any order the cell holds the highest state it was ever given. */
  lemma {:induction false} CellIsHighWaterMark(s: DispatchState, tos: seq<DispatchState>)
    ensures RaiseAll(s, tos) == s || RaiseAll(s, tos) in tos
    ensures Rank(RaiseAll(s, tos)) >= Rank(s)
    ensures forall to :: to in tos ==> Rank(to) <= Rank(RaiseAll(s, tos))
    decreases |tos|
  {
    if tos != [] {
      CellIsHighWaterMark(Raise(s, tos[0]), tos[1..]);
      forall to | to in tos ensures Rank(to) <= Rank(RaiseAll(s, tos)) {
        assert to == tos[0] || to in tos[1..];
      }
    }
  }

  class DispatchCell {
    var state: DispatchState

    constructor ()
      ensures state == NoDispatch
    {
      state := NoDispatch;
    }

    method Advance(to: DispatchState)
      modifies this
      ensures state == Raise(old(state), to)
    {
      if Rank(to) > Rank(state) {
        state := to;
      }
    }
  }
}
