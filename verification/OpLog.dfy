/** The log of structural decisions that the leader layer writes and the follower layers replay. */
module OpLog {
  datatype Op =
    | Fold(kept: seq<nat>)
    | Merge(pair: nat, keep: seq<nat>)
    | Route(assign: seq<nat>, keeps: map<nat, seq<nat>>)
    | RouteSpan(bounds: seq<(nat, nat)>, assign: seq<nat>, keeps: map<nat, seq<nat>>, routed: nat)

  /**
   * Reading past the log, a decision of the wrong kind, one that does not fit the reader, or a first
   * decision over fewer tokens than slots.
   */
  datatype Fault = LogExhausted | Desync | Misfit | FirstChunkTooSmall

  datatype Outcome<+T> = Done(value: T) | Raised(fault: Fault)

  /** Shared by every layer of one cache. */
  class Coord {
    var log: seq<Op>

    constructor ()
      ensures log == []
    {
      log := [];
    }
  }
}
