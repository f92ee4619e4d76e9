/** Go2RTCActor: which replies one request gets, in which order, for any outcome of its foreign calls. */
module Go2RTC {
  import opened Messages

  /** What the world outside the process answers: the configured list, a health check, a removal. */
  datatype Outside = Outside(list: Result<seq<string>>, health: Result<bool>, removal: Result<bool>)

  /** The messages sent to the parent, in order; every reply copies the request's stamps. */
  function Handle(m: Msg, now: Time, outside: Outside): seq<Msg>
  {
    match m
    case FetchStreamList(at, requestedBy) =>
      (match outside.list
       case Err(text) => [StreamListFetched(at, [], requestedBy, text)]
       case Ok(streams) => [StreamListFetched(at, streams, requestedBy, "")])
    case CheckStreamHealth(name, at, attempt, requestedBy, confirmAfter) =>
      (match outside.health
       case Err(text) => [StreamHealthChecked(name, at, attempt, false, now, requestedBy, confirmAfter, text)]
       case Ok(has) => [StreamHealthChecked(name, at, attempt, has, now, requestedBy, confirmAfter, "")])
    case RemoveStream(name, at) =>
      (match outside.removal
       case Err(text) => [StreamRemovalCompleted(name, at, false, 0, text)]
       case Ok(removed) =>
         if !removed then [StreamRemovalCompleted(name, at, false, 0, "")]
         else [StreamRemoved(name, now), StreamRemovalCompleted(name, at, true, now, "")])
    case _ => []
  }

  /** The reply is of the request's kind and carries its stamps, unchanged. */
  predicate Replies(m: Msg, reply: Msg)
  {
    && (m.FetchStreamList? ==>
          reply.StreamListFetched? && (reply.at, reply.requestedBy) == (m.at, m.requestedBy))
    && (m.CheckStreamHealth? ==>
          reply.StreamHealthChecked?
          && (reply.name, reply.at, reply.attempt, reply.requestedBy, reply.confirmAfter)
             == (m.name, m.at, m.attempt, m.requestedBy, m.confirmAfter))
    && (m.RemoveStream? ==> reply.StreamRemovalCompleted? && (reply.name, reply.at) == (m.name, m.at))
  }

  /** A removal that took the stream away. */
  predicate Removes(m: Msg, outside: Outside) { m.RemoveStream? && outside.removal == Ok(true) }

  /**
   * `Receive`: the foreign call, then its replies, each with one send to the parent. A request gets exactly one
   * reply, and it comes last; only a removal that succeeded is announced, and it is announced before that reply.
   */
  method Receive(m: Msg, now: Time, outside: Outside) returns (sends: seq<Msg>)
    ensures sends == Handle(m, now, outside)
    ensures |sends| == (if !IsRequest(m) then 0 else if Removes(m, outside) then 2 else 1)
    ensures IsRequest(m) ==>
              var reply := sends[|sends| - 1];
              && Replies(m, reply)
              && (m.FetchStreamList? ==>
                    && reply.streams == (if outside.list.Ok? then outside.list.value else [])
                    && reply.error == if outside.list.Err? then outside.list.text else "")
              && (m.CheckStreamHealth? ==>
                    && reply.checkedAt == now && (reply.hasProducer <==> outside.health == Ok(true))
                    && reply.error == if outside.health.Err? then outside.health.text else "")
              && (m.RemoveStream? ==>
                    && (reply.removed <==> Removes(m, outside))
                    && reply.removedAt == (if Removes(m, outside) then now else 0)
                    && reply.error == if outside.removal.Err? then outside.removal.text else "")
    ensures Removes(m, outside) ==> sends[0] == StreamRemoved(m.name, now)
  {
    sends := [];
    match m
    case FetchStreamList(at, requestedBy) =>
      if outside.list.Err? {
        sends := sends + [StreamListFetched(at, [], requestedBy, outside.list.text)];
        return;
      }
      sends := sends + [StreamListFetched(at, outside.list.value, requestedBy, "")];
    case CheckStreamHealth(name, at, attempt, requestedBy, confirmAfter) =>
      if outside.health.Err? {
        sends := sends
          + [StreamHealthChecked(name, at, attempt, false, now, requestedBy, confirmAfter, outside.health.text)];
        return;
      }
      sends := sends
        + [StreamHealthChecked(name, at, attempt, outside.health.value, now, requestedBy, confirmAfter, "")];
    case RemoveStream(name, at) =>
      if outside.removal.Err? {
        sends := sends + [StreamRemovalCompleted(name, at, false, 0, outside.removal.text)];
        return;
      }
      if !outside.removal.value {
        sends := sends + [StreamRemovalCompleted(name, at, false, 0, "")];
        return;
      }
      var removedAt := now;
      sends := sends + [StreamRemoved(name, removedAt)];
      sends := sends + [StreamRemovalCompleted(name, at, true, removedAt, "")];
    case _ =>
  }

  predicate IsRequest(m: Msg)
  {
    m.FetchStreamList? || m.CheckStreamHealth? || m.RemoveStream?
  }

  /** The reply that reaches the requester: the last message; `StreamRemoved` goes to the master only. */
  function Answer(m: Msg, now: Time, outside: Outside): Msg
    requires IsRequest(m)
  {
    var replies := Handle(m, now, outside);
    replies[|replies| - 1]
  }
}
