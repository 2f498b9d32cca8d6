/**
 The HTTP ping handler (`handlers::ping`, src/main.rs, lines 131-139): it
 forwards the key from `POST /ping/{key}` to the ping loop through the
 bounded ping channel and answers 200 when the send succeeded, 503 when it
 failed. The route filters and the server around it are not modelled.
 */
module Ingest {
  import Watchdog

  /** What `tx.send(id)` on the ping channel returns. */
  datatype SendResult = Sent | SendFailed(reason: string)

  /** The status code of the reply, and the warning logged on the way. */
  datatype Reply = Reply(status: int, warnings: seq<string>)

  const StatusOk: int := 200
  const StatusServiceUnavailable: int := 503
  const SendErrorPrefix: string := "error while sending ping to handler thread: "

  /**
   The reply to one ping: 200 exactly when the key was handed to the ping
   loop, 503 exactly when it could not be, and only the failure is logged.
   */
  function PingReply(send: SendResult): (r: Reply)
    ensures r.status == StatusOk <==> send.Sent?
    ensures r.status == StatusServiceUnavailable <==> send.SendFailed?
    ensures send.Sent? ==> r.warnings == []
    ensures send.SendFailed? ==> r.warnings == [SendErrorPrefix + send.reason]
  {
    match send
    case Sent => Reply(StatusOk, [])
    case SendFailed(reason) => Reply(StatusServiceUnavailable, [SendErrorPrefix + reason])
  }

  /**
   One ping end to end: the handler's reply, and the registry after the
   ping loop has taken the key from the channel (if it got there).
   */
  function IngestPing(e: Watchdog.Engine, id: string, send: SendResult, now: int): (r: (Reply, Watchdog.Engine))
    ensures r.0.status == StatusOk ==> id in r.1.timers && r.1.timers.Keys == e.timers.Keys + {id}
    ensures r.0.status == StatusServiceUnavailable ==> r.1 == e
  {
    (PingReply(send), if send.Sent? then Watchdog.Step(e, Watchdog.PingReceived(id, now)) else e)
  }

  /**
   A 200 reply means the key now has a fresh, un-run handle due five
   seconds later; a 503 reply means the registry did not change.
   */
  lemma IngestPingOutcome(e: Watchdog.Engine, id: string, send: SendResult, now: int)
    requires Watchdog.WellFormed(e)
    ensures var (reply, e') := IngestPing(e, id, send, now);
      && Watchdog.WellFormed(e')
      && (reply.status == StatusOk ==>
            && id in e'.timers
            && e'.timers[id].deadline == now + Watchdog.GracePeriod
            && !e'.timers[id].fired
            && e'.timers[id] !in e.timers.Values)
      && (reply.status == StatusServiceUnavailable ==> e' == e)
  {
  }
}
