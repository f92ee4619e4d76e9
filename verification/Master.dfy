/** MasterActor's routing of the messages of the cleanup and counting protocols. */
module Master {
  import opened Messages

  datatype Destination = ToCleaner(msg: Msg) | ToCounter(msg: Msg) | ToAction(msg: Msg) | ToRedis(msg: Msg)

  const REMOVAL_ACTION := "stream_removed_after_double_check"
  const CLEANUP_REASON := "cleanup_removed_streams"

  /** The sends of one message, in program order. */
  function Handle(m: Msg, now: Time): seq<Destination>
  {
    match m
    case TriggerCleanup(reason) => [ToCleaner(CleanupCycleStarted(now, reason))]
    case CountAliveStreamsStarted(_, _) => [ToCounter(m)]
    case StreamListFetched(_, _, _, _) => [ToCleaner(m), ToCounter(m)]
    case StreamHealthChecked(_, _, _, _, _, _, _, _) => [ToCleaner(m), ToCounter(m)]
    case StreamRemovalCompleted(_, _, _, _, _) => [ToCleaner(m)]
    case StreamRemoved(name, _) => [ToAction(ExecuteAction(name, REMOVAL_ACTION))]
    case CleanupCycleFinished(at, _, alive, removedStreams) =>
      if removedStreams == 0 then [] else [ToRedis(UpdateStreamCount(at, CLEANUP_REASON, alive))]
    case AliveStreamCountCalculated(at, reason, alive, error) =>
      if error != "" then [] else [ToRedis(UpdateStreamCount(at, reason, alive))]
    case ExecuteAction(_, _) => [ToAction(m)]
    case _ => []
  }

  /** What the four receivers are to get because of `m`. */
  predicate Due(m: Msg, now: Time, d: Destination)
  {
    match d
    case ToCleaner(x) =>
      || (x == m && (m.StreamListFetched? || m.StreamHealthChecked? || m.StreamRemovalCompleted?))
      || (m.TriggerCleanup? && x == CleanupCycleStarted(now, m.reason))
    case ToCounter(x) => x == m && (m.StreamListFetched? || m.StreamHealthChecked? || m.CountAliveStreamsStarted?)
    case ToAction(x) =>
      || (x == m && m.ExecuteAction?)
      || (m.StreamRemoved? && x == ExecuteAction(m.name, "stream_removed_after_double_check"))
    case ToRedis(x) =>
      || (m.CleanupCycleFinished? && m.removedStreams != 0
          && x == UpdateStreamCount(m.at, "cleanup_removed_streams", m.alive))
      || (m.AliveStreamCountCalculated? && m.error == "" && x == UpdateStreamCount(m.at, m.reason, m.alive))
  }

  /** Each receiver gets exactly what is due to it, once; only list and check replies go to two. */
  method Receive(m: Msg, now: Time) returns (sends: seq<Destination>)
    ensures sends == Handle(m, now)
    ensures forall d :: d in sends <==> Due(m, now, d)
    ensures |sends| <= 2 && (|sends| == 2 <==> m.StreamListFetched? || m.StreamHealthChecked?)
  {
    sends := [];
    match m
    case TriggerCleanup(reason) => sends := sends + [ToCleaner(CleanupCycleStarted(now, reason))];
    case CountAliveStreamsStarted(_, _) => sends := sends + [ToCounter(m)];
    case StreamListFetched(_, _, _, _) =>
      sends := sends + [ToCleaner(m)];
      sends := sends + [ToCounter(m)];
    case StreamHealthChecked(_, _, _, _, _, _, _, _) =>
      sends := sends + [ToCleaner(m)];
      sends := sends + [ToCounter(m)];
    case StreamRemovalCompleted(_, _, _, _, _) => sends := sends + [ToCleaner(m)];
    case StreamRemoved(name, _) => sends := sends + [ToAction(ExecuteAction(name, REMOVAL_ACTION))];
    case CleanupCycleFinished(at, _, alive, removedStreams) =>
      if removedStreams == 0 { return; }
      sends := sends + [ToRedis(UpdateStreamCount(at, CLEANUP_REASON, alive))];
    case AliveStreamCountCalculated(at, reason, alive, error) =>
      if error != "" { return; }
      sends := sends + [ToRedis(UpdateStreamCount(at, reason, alive))];
    case ExecuteAction(_, _) => sends := sends + [ToAction(m)];
    case _ =>
  }
}
