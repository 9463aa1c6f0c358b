/** internal/heartbeat/state.go and config.go: the transition functions and their thresholds. */
module Heartbeats {
  import opened Wrappers
  import opened Nodes

  datatype HeartbeatError = ErrDeadNode | ErrInvalidTransition

  datatype Config = Config(interval: int, suspectTimeout: int, deadTimeout: int)
  {
    /** Validate. */
    predicate Valid() {
      0 < interval < suspectTimeout < deadTimeout
    }
  }

  function NextOnHeartbeat(from: NodeState): Result<NodeState, HeartbeatError> {
    match from
    case Init => Ok(Active)
    case Registered => Ok(Active)
    case Active => Ok(Active)
    case Suspect => Ok(Active)
    case Dead => Err(ErrDeadNode)
    case Unspecified => Err(ErrInvalidTransition)
    case Stopping => Err(ErrInvalidTransition)
  }

  /** A heartbeat makes a node ACTIVE from every state but three; DEAD alone is refused as dead. */
  lemma HeartbeatExactly(from: NodeState)
    ensures NextOnHeartbeat(from) == Ok(Active) <==> from in {Init, Registered, Active, Suspect}
    ensures NextOnHeartbeat(from) == Err(ErrDeadNode) <==> from.Dead?
    ensures NextOnHeartbeat(from).Ok? ==> NextOnHeartbeat(from).value.Active?
  {
  }

  function NextOnTimeout(from: NodeState, elapsed: int, suspectAfter: int, deadAfter: int): (NodeState, bool) {
    if from.Dead? || from.Unspecified? || from.Stopping? then (from, false)
    else if elapsed >= deadAfter then (Dead, true)
    else if elapsed >= suspectAfter then (Suspect, !from.Suspect?)
    else (from, false)
  }

  /** Silence only moves a node towards DEAD, past the two thresholds, and `changed` says whether it moved. */
  lemma TimeoutExactly(from: NodeState, elapsed: int, suspectAfter: int, deadAfter: int)
    requires suspectAfter < deadAfter
    ensures var (next, changed) := NextOnTimeout(from, elapsed, suspectAfter, deadAfter);
            && (changed <==> next != from)
            && (from in {Unspecified, Stopping, Dead} ==> next == from)
            && (from !in {Unspecified, Stopping, Dead} ==>
                  && (next.Dead? <==> elapsed >= deadAfter)
                  && (next.Suspect? <==> suspectAfter <= elapsed < deadAfter || (from.Suspect? && elapsed < suspectAfter))
                  && (elapsed < suspectAfter ==> next == from))
  {
  }

  /** The callback Check hands to the registry: negative elapsed time counts as zero. */
  function CheckTransition(cfg: Config): (NodeState, int, int) -> (NodeState, bool) {
    (state: NodeState, last: int, now: int) =>
      NextOnTimeout(state, if now - last < 0 then 0 else now - last, cfg.suspectTimeout, cfg.deadTimeout)
  }
}
