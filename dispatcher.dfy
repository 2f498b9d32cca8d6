/**
 The alert dispatcher thread (src/main.rs, lines 52-64): it receives keys
 from the alert channel one at a time and calls `notify_failure` on the
 configured notifier for each, logging the outcome. A receive error is
 logged and skipped; a failed notification is logged and the loop goes on
 with the next alert.

 The outcome of each `notify_failure` call is an input: the notifier's
 own code is not part of this model.
 */
module Dispatcher {

  /** What one `rx_alert.recv()` yields. */
  datatype AlertRecv = Alert(key: string) | AlertRecvError(reason: string)

  /** What one `notify_failure` call returns. */
  datatype Outcome = Notified | NotifyFailed(reason: string)

  /** One log line of the dispatcher. */
  datatype LogEntry = Info(text: string) | Warn(text: string)

  const FailureNotified: string := "failure notified"
  const NotifyErrorPrefix: string := "error while notifying about failure: "
  const RecvErrorPrefix: string := "error while receiving alert: "

  /** The keys of the received alerts, in order of arrival; receive errors carry no key. */
  function AlertKeys(rs: seq<AlertRecv>): (ks: seq<string>)
    ensures |ks| <= |rs|
    decreases |rs|
  {
    if rs == [] then []
    else if rs[0].Alert? then [rs[0].key] + AlertKeys(rs[1..])
    else AlertKeys(rs[1..])
  }

  /**
   The line logged for one received item, given the outcome of its
   notification: a warning exactly when the receive or the notification
   failed, and the failure's text is kept in it.
   */
  function LogFor(r: AlertRecv, o: Outcome): (entry: LogEntry)
    ensures entry.Warn? <==> r.AlertRecvError? || o.NotifyFailed?
    ensures r.AlertRecvError? ==> entry.text == RecvErrorPrefix + r.reason
    ensures r.Alert? && o.NotifyFailed? ==> entry.text == NotifyErrorPrefix + o.reason
  {
    match r
    case AlertRecvError(reason) => Warn(RecvErrorPrefix + reason)
    case Alert(_) =>
      match o
      case Notified => Info(FailureNotified)
      case NotifyFailed(reason) => Warn(NotifyErrorPrefix + reason)
  }

  /**
   Runs the dispatcher over the items `received`; `outcomes[i]` is what the
   notifier returns when called for `received[i]` (unused for a receive
   error). Exactly one `notify_failure` call is made per received alert,
   with its key and in arrival order, whatever earlier calls returned;
   every received item leaves one log line.
   */
  method Dispatch(received: seq<AlertRecv>, outcomes: seq<Outcome>) returns (calls: seq<string>, log: seq<LogEntry>)
    requires |outcomes| == |received|
    ensures calls == AlertKeys(received)
    ensures |log| == |received|
    ensures forall i | 0 <= i < |received| :: log[i] == LogFor(received[i], outcomes[i])
  {
    calls, log := [], [];
    var n := 0;
    while n < |received|
      invariant 0 <= n <= |received|
      invariant calls == AlertKeys(received[..n])
      invariant |log| == n
      invariant forall i | 0 <= i < n :: log[i] == LogFor(received[i], outcomes[i])
    {
      AlertKeysAppend(received[..n], [received[n]]);
      assert received[..n + 1] == received[..n] + [received[n]];
      match received[n] {
        case AlertRecvError(reason) =>
          log := log + [Warn(RecvErrorPrefix + reason)];
        case Alert(key) =>
          calls := calls + [key];
          match outcomes[n] {
            case Notified =>
              log := log + [Info(FailureNotified)];
            case NotifyFailed(reason) =>
              log := log + [Warn(NotifyErrorPrefix + reason)];
          }
      }
      n := n + 1;
    }
    assert received[..n] == received;
  }

  /** The calls for two stretches of the alert stream are the calls for the first, then for the second. */
  lemma {:induction false} AlertKeysAppend(a: seq<AlertRecv>, b: seq<AlertRecv>)
    ensures AlertKeys(a + b) == AlertKeys(a) + AlertKeys(b)
    decreases |a|
  {
    if a == [] {
      assert a + b == b;
    } else {
      assert (a + b)[0] == a[0] && (a + b)[1..] == a[1..] + b;
      AlertKeysAppend(a[1..], b);
    }
  }

  /**
   The alert received at position `i` is the subject of the call numbered by
   the alerts received before it: one call per alert, in arrival order.
   */
  lemma CallForEachAlert(rs: seq<AlertRecv>, i: nat)
    requires i < |rs| && rs[i].Alert?
    ensures |AlertKeys(rs[..i])| < |AlertKeys(rs)|
    ensures AlertKeys(rs)[|AlertKeys(rs[..i])|] == rs[i].key
  {
    assert rs == rs[..i] + ([rs[i]] + rs[i + 1..]);
    AlertKeysAppend(rs[..i], [rs[i]] + rs[i + 1..]);
    AlertKeysAppend([rs[i]], rs[i + 1..]);
  }

  /** When no receive fails, the calls are exactly the received keys, one for one. */
  lemma {:induction false} CallsMatchAlerts(rs: seq<AlertRecv>)
    requires forall i | 0 <= i < |rs| :: rs[i].Alert?
    ensures |AlertKeys(rs)| == |rs|
    ensures forall i | 0 <= i < |rs| :: AlertKeys(rs)[i] == rs[i].key
    decreases |rs|
  {
    if rs != [] {
      CallsMatchAlerts(rs[1..]);
    }
  }

  /**
   Every call is for a received alert: call number `j` is made for the alert
   at some position `i`, and exactly `j` alerts were received before it.
   With `CallForEachAlert`, calls and alerts correspond one for one, in order.
   */
  lemma {:induction false} CallComesFromAlert(rs: seq<AlertRecv>, j: nat)
    requires j < |AlertKeys(rs)|
    ensures exists i | 0 <= i < |rs| :: rs[i].Alert? && |AlertKeys(rs[..i])| == j && AlertKeys(rs)[j] == rs[i].key
    decreases |rs|
  {
    var rest := rs[1..];
    assert rs == [rs[0]] + rest;
    if rs[0].Alert? && j == 0 {
      assert rs[..0] == [];
      assert rs[0].Alert? && |AlertKeys(rs[..0])| == 0 && AlertKeys(rs)[0] == rs[0].key;
    } else {
      var j' := if rs[0].Alert? then j - 1 else j;
      CallComesFromAlert(rest, j');
      var i' :| 0 <= i' < |rest| && rest[i'].Alert? && |AlertKeys(rest[..i'])| == j' && AlertKeys(rest)[j'] == rest[i'].key;
      assert rs[..i' + 1] == [rs[0]] + rest[..i'];
      AlertKeysAppend([rs[0]], rest[..i']);
      assert rs[i' + 1].Alert? && |AlertKeys(rs[..i' + 1])| == j && AlertKeys(rs)[j] == rs[i' + 1].key;
    }
  }
}
