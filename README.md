# dodemansknop — a Dafny model of the watchdog core

dodemansknop is a dead man's switch. Clients send `POST /ping/{key}` to
keep a key alive. When no ping for a key arrives within five seconds of the
last one, the key is sent to an alert thread. That thread reports it through
the configured notifier. The notifier is either a no-op or a webhook.

This project models the sequential logic in `src/main.rs`:

- `notifiers.dfy` (module `Notifiers`) models `build_notifier`. It is a
  total function from the settings to a closed `Notifier` variant or an
  error message. The module also proves a round trip back to settings.
- `watchdog.dfy` (module `Watchdog`) models the ping loop's
  `active_timers` map. `Registry` is a class whose map field is updated in
  place by `Ping`, `Receive` and `Tick`. Each method is proved against the
  value-level functions `AfterPing`, `AfterTick` and `Step`. The lemmas
  about those functions cover one step and whole runs `Run(e, events)`.
- `dispatcher.dfy` (module `Dispatcher`) models the alert thread's loop
  as a method over the received items and the notifier's outcomes.
- `ingest.dfy` (module `Ingest`) models `handlers::ping`'s status
  mapping. It also joins the handler to the registry for one ping.

Time is an integer number of seconds. The timer thread of the `timer`
crate becomes an explicit `Tick(now)` step. `Tick` runs every stored handle
that has not run yet and whose deadline (`now + 5` at the ping) has passed.
The crate's code is not part of this model. Two properties of its `Guard`
are assumed: a scheduled callback runs at most once, and dropping its guard
cancels it before it runs. Overwriting a map entry drops the old guard. A
handle's `serial` stands for the guard object's identity, so that
"the replaced handle" is well defined.

## Model

| member | source | states |
|---|---|---|
| `Notifiers.BuildNotifier` | src/main.rs:23-38 | the result is `Ok` exactly for tag "noop", or for tag "webhook" when the webhook section is present; a built notifier's tag is the configured tag |
| `Notifiers.BuildNoOpIgnoresWebhook` | src/main.rs:35 | "noop" yields `Ok(NoOp)` whatever the webhook section holds |
| `Notifiers.BuildWebhookCarriesSettings` | src/main.rs:25-31 | "webhook" with settings yields a webhook notifier with the configured URL and method unchanged; absent headers become `[]`, present headers pass through in order |
| `Notifiers.BuildNotifierErrors` | src/main.rs:33-36 | "webhook" without settings gives "no webhook settings found"; any other tag `t` gives "unsupported notifier: " + `t`, and `t` is recoverable from the message |
| `Notifiers.HeadersOrEmpty` | src/main.rs:30 | `unwrap_or(vec![])`: absent headers are the empty list, present ones are kept |
| `Notifiers.Tag` | src/main.rs:24-36 | the configuration tag of each notifier variant, one tag per variant |
| `Notifiers.SettingsFor` | src/main.rs:23-38 | a configuration whose tag is the notifier's tag (the inverse of `BuildNotifier`) |
| `Notifiers.BuildSettingsForRoundTrip` | src/main.rs:23-38 | building from `SettingsFor(n)` gives `Ok(n)` for every notifier variant |
| `Notifiers.BuildNotifierInjective` | src/main.rs:23-38 | two configurations that build the same notifier have the same tag and, for "webhook", the same URL, method and header list (absent headers counting as empty) |
| `Watchdog.Empty` | src/main.rs:71 | the registry starts empty and satisfies the registry invariant |
| `Watchdog.AfterPing` | src/main.rs:87 | the insert adds `id` and no other key, hands out one new guard identity, and leaves every other key's entry unchanged (its full effect is `PingEffect`) |
| `Watchdog.AfterTick` | src/main.rs:87-94 | a tick keeps the key set and guard count, and nothing is still due at the tick's time (its full effect is `TickEffect`) |
| `Watchdog.Alerts` | src/main.rs:88-90 | every due handle's captured key is sent, and nothing is sent when nothing is due (exactly the due keys: `AlertsAreDueKeys`) |
| `Watchdog.Step` | src/main.rs:73-95 | one receive or one tick never removes a key and never takes back a guard identity |
| `Watchdog.Run` | src/main.rs:71-95 | no event removes a key: the key set never shrinks over a run |
| `Watchdog.RunAlerts` | src/main.rs:87-94 | only ticks send alerts: a run without ticks sends nothing |
| `Watchdog.Due` | src/main.rs:87-88 | the due keys are among the registry's keys |
| `Watchdog.PingEffect` | src/main.rs:69-87 | after a ping for `id` at `now`, `id` holds a new guard for `id` that has not run and is due at `now + 5`; every other entry is unchanged; the key set grows by `id` alone (at most one key); the invariant is kept |
| `Watchdog.TickEffect` | src/main.rs:87-94 | a tick marks exactly the due handles as run and changes nothing else; no key is removed; a handle that ran is never due again |
| `Watchdog.AlertsAreDueKeys` | src/main.rs:81-90 | the keys a tick sends are exactly its due keys: a callback sends only the key it was scheduled for |
| `Watchdog.RecvErrorKeepsRegistry` | src/main.rs:74-78 | a receive error on the ping channel leaves the registry unchanged and runs no callback |
| `Watchdog.RenewedKeyNotAlerted` | src/main.rs:69-87 | a key pinged at `t` raises no alert at a tick before `t + 5` that directly follows the ping |
| `Watchdog.MissedKeyAlertedOnce` | src/main.rs:87-94 | a key pinged at `t` is alerted at a tick at or after `t + 5` that directly follows the ping, and not at the tick after that |
| `Watchdog.StepPending` | src/main.rs:73-94 | without a ping for `k`, a step alerts `k` only if its handle was pending, and then it is no longer pending |
| `Watchdog.AlertedAtMostOnceWithoutPing` | src/main.rs:87-94 | over any run without a ping for `k`, `k` is alerted at most once, and never if its handle has already run |
| `Watchdog.PendingKeyAlerted` | src/main.rs:87-94 | a pending handle for `k` is alerted by any run without a ping for `k` that ticks at or after its deadline |
| `Watchdog.MissedDeadlineAlertsExactlyOnce` | src/main.rs:69-94 | after a ping for `k` at `t`, a run with no further ping for `k` and some tick at or after `t + 5` alerts `k` exactly once |
| `Watchdog.KeptAliveNeverAlerted` | src/main.rs:69-94 | a pending key whose every tick comes before the deadline of its latest ping is never alerted over the run |
| `Watchdog.RenewedKeyNeverAlerted` | src/main.rs:69-94 | a key pinged at `t` and renewed so that every tick comes before its latest ping plus five seconds is never alerted, over any such run |
| `Watchdog.RenewalPostponesAlert` | src/main.rs:69-94 | pings at 0 and 3 give no alert at 5, the alert at 8, and none after it |
| `Watchdog.StepSettled` | src/main.rs:73-95 | one event keeps the registry invariant, and the guards that have run so far have each run once |
| `Watchdog.RunSettled` | src/main.rs:73-95 | the same over any sequence of pings, receive errors and ticks |
| `Watchdog.FiresAtMostOnce` | src/main.rs:87-94 | over any run, each guard's callback runs at most once |
| `Watchdog.StepRetired` | src/main.rs:87 | a replaced guard stays replaced and does not run, whatever the next event is |
| `Watchdog.RunRetired` | src/main.rs:87 | a replaced guard never runs over any later run |
| `Watchdog.ReplacedNeverFires` | src/main.rs:87 | once a ping replaces a key's handle, the replaced handle never runs, whatever follows |
| `Watchdog.Registry.constructor` | src/main.rs:71 | a new registry is empty |
| `Watchdog.Registry.Ping` | src/main.rs:80-94 | the map after the insert is `AfterPing` of the old one; the invariant is kept |
| `Watchdog.Registry.Receive` | src/main.rs:74-94 | one receive: a ping is registered as `Step` says, a receive error changes nothing |
| `Watchdog.Registry.Tick` | src/main.rs:87-94 | the map after a tick is `AfterTick` of the old one; the returned alerts are distinct and are exactly the keys the due callbacks captured |
| `Dispatcher.AlertKeys` | src/main.rs:54-60 | no more calls than received items |
| `Dispatcher.LogFor` | src/main.rs:55-63 | one log line per received item; a warning exactly when the receive or the notification failed, and it carries the failure text |
| `Dispatcher.Dispatch` | src/main.rs:52-64 | the `notify_failure` calls are exactly the received alerts' keys in arrival order, whatever the outcomes; one log line per item, as `LogFor` says |
| `Dispatcher.AlertKeysAppend` | src/main.rs:53-64 | the calls for a concatenated stream are the calls for each part, in order |
| `Dispatcher.CallForEachAlert` | src/main.rs:54-60 | the alert at position `i` is the subject of the call numbered by the alerts received before it |
| `Dispatcher.CallComesFromAlert` | src/main.rs:54-60 | every call is for a received alert: call `j` is for the alert at a position `i` with exactly `j` alerts before it |
| `Dispatcher.CallsMatchAlerts` | src/main.rs:54-60 | with no receive errors, call `i` is for received key `i`, one for one |
| `Ingest.PingReply` | src/main.rs:131-139 | the status is 200 exactly when the send succeeded and 503 exactly when it failed; only the failure is logged |
| `Ingest.IngestPing` | src/main.rs:131-139 | a 200 reply adds the key to the registry and no other key; a 503 reply leaves the registry as it was |
| `Ingest.IngestPingOutcome` | src/main.rs:131-139 | a 200 reply means the key now holds a new handle due five seconds later that has not run; a 503 reply means the registry is unchanged |

## Left out

- The warp server, its route filters and request logging (src/main.rs:98-122). They are HTTP transport, and only the handler's status mapping is modelled.
- Threads and `mpsc` channels as concurrency primitives. Each loop is modelled as a sequence of its own steps. The infinite loops become finite sequences of received items.
- The ping channel's capacity of 32. `SyncSender::send` blocks when the channel is full and fails only when the receiver is gone. The handler therefore sees only "sent" or "failed", and that is the model's input.
- The callback's own `tx_cpy.send` failure and its log lines (src/main.rs:88-93). The alert channel is unbounded, so the send fails only once the dispatcher is gone. `Tick` returns the keys sent.
- The race between a firing callback and a replacing ping. It is settled inside the `timer` crate, whose code is not part of this model. The model assumes that dropping a `Guard` cancels its callback before it runs. `Tick` processes due keys in an unspecified order.
- Timely ticks. `Run` does not force a tick at each deadline. A run may ping a key again after its deadline with no tick in between, and then the first deadline is never alerted. In the program the first guard would have fired at its deadline. So "alerted at the deadline" holds only for runs that tick there, which is what `PendingKeyAlerted` and `MissedDeadlineAlertsExactlyOnce` require.
- chrono wall-clock time and the `timer` crate's scheduling. Time is an integer number of seconds, advanced by explicit ticks.
- `config::retrieve_settings`, the `notifier` module and `WebhookNotifier`'s HTTP behaviour are not part of this model. The outcome of each `notify_failure` call is an input to `Dispatch`, and the notifier variant does not influence it.
- `main`'s `unwrap` panics, `env_logger` set-up and the debug/info logs of the ping loop.
