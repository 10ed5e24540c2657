/** Connection states and the history of state-change notifications. */
module States {
  import opened Wrappers

  /** The states this overlay ever enters. */
  datatype NetworkState = Undefined | Online | Offline | Error

  /** The arguments of one state-change notification: the state before, the
      state after, the causing fault if any, and a note for the user. */
  datatype StatusChange = StatusChange(
    oldState: NetworkState,
    newState: NetworkState,
    cause: Option<string>,
    note: string)

  /** The notifications `ts` form an unbroken history from `from` to `to`:
      each one starts where the previous one ended. */
  predicate Chained(ts: seq<StatusChange>, from: NetworkState, to: NetworkState)
    decreases |ts|
  {
    if ts == [] then from == to
    else ts[0].oldState == from && Chained(ts[1..], ts[0].newState, to)
  }

  /** A notification that starts from the current state extends the history
      to its new state. */
  lemma {:induction false} ChainedExtend(ts: seq<StatusChange>, from: NetworkState, to: NetworkState, c: StatusChange)
    requires Chained(ts, from, to) && c.oldState == to
    ensures Chained(ts + [c], from, c.newState)
    decreases |ts|
  {
    if ts == [] {
      assert ts + [c] == [c];
      assert [c][1..] == [];
    } else {
      ChainedExtend(ts[1..], ts[0].newState, to, c);
      assert (ts + [c])[1..] == ts[1..] + [c];
    }
  }

  /** In an unbroken history, every notification's old state is the previous
      notification's new state, the first starts at `from` and the last ends
      at `to`. */
  lemma {:induction false} ChainedAdjacent(ts: seq<StatusChange>, from: NetworkState, to: NetworkState)
    requires Chained(ts, from, to)
    ensures forall i :: 0 < i < |ts| ==> ts[i].oldState == ts[i - 1].newState
    ensures ts != [] ==> ts[0].oldState == from && ts[|ts| - 1].newState == to
    decreases |ts|
  {
    if ts != [] {
      ChainedAdjacent(ts[1..], ts[0].newState, to);
      forall i | 0 < i < |ts| ensures ts[i].oldState == ts[i - 1].newState {
        if i > 1 {
          assert ts[i] == ts[1..][i - 1] && ts[i - 1] == ts[1..][i - 2];
        }
      }
    }
  }
}
