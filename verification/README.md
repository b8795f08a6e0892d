# Speaker watcher model

A Dafny model of the `Watcher` class of `watch_for_speaker.py`, a daemon for a
Raspberry Pi music box. The watcher listens for the bluez `Connected` and
`Disconnected` signals of one paired Bluetooth speaker. When the speaker's
audio sink connects, it cancels its speculative-reconnect timer, sets a Hue
light to a fixed scene, has MPD clear its queue, load a playlist, shuffle and
play, and fires an IFTTT Maker webhook. When the sink disconnects, it turns the
light off, stops MPD, re-arms the 500 ms reconnect timer if none is armed, and
fires another webhook. While the timer runs, each tick calls
`audio.Connect()`. Three known bluez errors from that call are tolerated;
any other error is re-raised.

Instead of performing I/O, the model records every external action in a trace
(`Trace.Effect`): gobject timer calls, Hue calls, MPD calls and web requests.
The outcomes of external calls are inputs: the result of `audio.Connect()`
and the result of `requests.get`.

Modules:

- `Trace` (trace.dfy): the effect trace and exceptions. It also replays a
  trace to get the set of gobject timers it leaves live.
- `Notify` (notify.dfy): the `_ifttt` guard, the webhook URL template, and
  which request failures are swallowed.
- `Speculative` (speculative.dfy): how `speculative_connect` classifies the
  outcome of `audio.Connect()`.
- `Speaker` (speaker.dfy): the class `Watcher`. It has the timer handle
  `speculativeEventId`, gobject's source-id counter, and the effect trace. It
  also keeps a ghost history of the signals delivered. Its invariant `Valid()`
  has three parts:
  - the timers live in the trace are exactly the handle's timer, so at most
    one timer is ever live;
  - every timer id in the trace is below the next id gobject will give out,
    so a newly armed timer never reuses an id;
  - the handle is `None` exactly when the most recent audio-sink signal was
    `Connected`.

  Every handler keeps `Valid()`.

Behaviour of the code worth knowing:

- A repeated `Connected` on the audio sink is not ignored. The handle is
  already `None`, so `gobject.source_remove(None)` raises `TypeError` before
  any effect (`Speaker.Watcher.Connected`).
- A repeated `Disconnected` on the audio sink is not ignored. The light-off,
  MPD-stop and webhook effects happen again on every such signal. Only the
  timer is not re-armed (`Speaker.Watcher.Disconnected`).
- Lighting is not optional in the handlers. `set_light` is called
  unconditionally on the audio-sink paths, so those paths require a
  configured Hue bridge.
- The webhook request has no timeout argument. Only `ConnectTimeout` and
  `ReadTimeout` are swallowed. Every other request failure, a refused
  connection among them, propagates out of the handler.
- Each MPD use opens and closes its own connection to localhost:6600. Both
  steps are part of the recorded sequence.

## Model

| member | source | states |
|---|---|---|
| `Speaker.Watcher.constructor` | watch_for_speaker.py:61-91 | the configuration is stored, one 500 ms timer is armed and its id is the handle, the trace is exactly that timer call, and the invariant holds |
| `Speaker.Watcher.Create` | watch_for_speaker.py:61-93 | after construction, the handle is live, the trace is the timer arm followed by the 'boot' webhook request (or nothing when 'boot' is not configured), so the notification is the last action; a non-timeout request failure makes construction raise |
| `Speaker.Watcher.Ifttt` | watch_for_speaker.py:95-102 | appends exactly the effects of the `_ifttt` decision, leaves the handle and the timers alone, and raises only for a non-timeout failure of a request it made |
| `Speaker.Watcher.Connected` | watch_for_speaker.py:123-140 | a foreign interface changes nothing, with or without a Hue bridge; on the audio sink with a live handle, the timer is removed and the handle cleared first, then light on (bri 254, sat 120, hue 100, transition 5), MPD connect, clear, load playlist, shuffle, play, disconnect, then the 'play' webhook, in that order; without a live handle, `TypeError` is raised and the trace is unchanged; the single-timer invariant is kept |
| `Speaker.Watcher.Disconnected` | watch_for_speaker.py:142-152 | a foreign interface changes nothing, with or without a Hue bridge; on the audio sink: light off, MPD connect, stop, disconnect on every signal, then a new 500 ms timer, with the next gobject source id, which no earlier timer in the trace used, only when the handle was `None`, then the 'stop' webhook last; a live handle is kept; the single-timer invariant is kept |
| `Speaker.PlayEffects` | watch_for_speaker.py:128-139 | the light and MPD calls made on connect contain no timer call |
| `Speaker.StopEffects` | watch_for_speaker.py:145-149 | the light and MPD calls made on disconnect contain no timer call |
| `Speculative.SpeculativeConnect` | watch_for_speaker.py:105-121 | an attempt gives `True` (keep polling) exactly when Connect succeeded or failed with `org.bluez.Error.AlreadyConnected`, `org.bluez.Error.InProgress` or `org.bluez.Error.Failed`; any other DBus error name is re-raised unchanged, and a failed device lookup before the `try` is raised whatever its name; the handle is not an input, so no outcome touches it |
| `Notify.RequestInjective` | watch_for_speaker.py:96-99 | two configurations whose `_ifttt` requests the same URL have the same maker key and event identifier, when identifiers contain no '/' |
| `Notify.UrlInjective` | watch_for_speaker.py:98-99 | two requests with the same URL have the same event identifier and key, when the identifiers contain no '/' |
| `Notify.NotifyEffects` | watch_for_speaker.py:96-99 | `_ifttt` adds one web request to the trace, or none when the guard fails, and never touches a timer |
| `Notify.NotifyOutcome` | watch_for_speaker.py:97-102 | a connect or read timeout is swallowed; any other failure of a request that was made propagates, with its name; nothing is raised when no request is made |
| `Trace.LiveAppendOne` | watch_for_speaker.py:125 | after one more effect, the live timers are the previous ones with that effect applied: `timeout_add` adds its id and `source_remove` removes it |
| `Trace.LiveAppendNoTimerCalls` | watch_for_speaker.py:128-140 | light, MPD and web-request effects leave the set of live timers unchanged |

## Left out

- Argument parsing, logging setup, daemonisation and the PID lock file (watch_for_speaker.py:22-33, 154-185) are process plumbing. Their values reach the model as constructor parameters.
- The bluez adapter and device lookup and the signal registration (watch_for_speaker.py:80-89) are foreign DBus calls. A signal delivery is a call to `Connected(iface)` or `Disconnected(iface)`. Startup failures of these lookups are not modelled.
- The device lookup and the `audio.Connect()` call inside `speculative_connect` (watch_for_speaker.py:107-110) are foreign calls. Their outcome is the input `ConnectAttempt`: a lookup failure, a successful Connect, or a Connect failure with its DBus error name.
- `Speculative.SpeculativeConnect`: does not model what gobject does with a timer whose callback raises. The model keeps the handle and the live timer as they were, so the trace does not show a timer stopped by a fatal error.
- The Hue `Bridge`, the `MPDClient` and `requests.get` (watch_for_speaker.py:75, 98, 128-139, 145-149) are external clients. Each `set_light`, MPD and `requests.get` call is a trace entry. Creating the `Bridge` (watch_for_speaker.py:75) records nothing, and its failure is not modelled. Light and MPD calls are assumed to succeed. A request's result is the input `RequestOutcome`.
- `Speaker.Watcher.Connected`: requires a configured Hue bridge only for an audio-sink signal with a live handle, the one path that reaches `set_light`. Without a bridge, the Python code raises `AttributeError` from `None.set_light` after clearing the handle, and the model excludes that path.
- `Speaker.Watcher.Disconnected`: requires a configured Hue bridge only for an audio-sink signal. Without a bridge, the Python code raises `AttributeError` from `None.set_light` before any effect, and the model excludes that path.
- Without a bridge, Python never sets `self.light`. The model stores the lamp argument anyway, and reads it only when a bridge is configured.
- The gobject main loop and real timing (watch_for_speaker.py:177-178) are event-loop plumbing. A timer is an id from a counter plus its 500 ms interval. Timer ticks are not scheduled.
- Logging calls (watch_for_speaker.py:84, 102, 106, 114-118, 127, 144) are left out, because they only write to the log.
