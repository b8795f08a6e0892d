/** The observable behaviour of the watcher, recorded as a trace of effects
    instead of being performed: gobject timer calls, Hue light calls, MPD
    client calls and IFTTT web requests. Also the exceptions a handler can
    let escape, and the set of timers a trace leaves live. */
module Trace {

  datatype Option<T> = None | Some(value: T)

  /** Exceptions that escape from a handler of the watcher. */
  datatype Exception =
    | TypeError                        // gobject.source_remove given None
    | RequestException(name: string)   // a requests error other than a timeout
    | DBusException(name: string)      // a bluez error re-raised by the speculative connect

  /** How a handler whose Python result is None ends. */
  datatype Outcome = Returned | Raised(exc: Exception)

  /** How a handler that returns a value ends. */
  datatype Result<T> = Ok(value: T) | Err(exc: Exception)

  /** One externally visible action, in the order the watcher performs it. */
  datatype Effect =
    | TimerAdd(id: nat, intervalMs: nat)    // gobject.timeout_add, returning source id `id`
    | TimerRemove(id: nat)                  // gobject.source_remove(id)
    | LightOn(light: Option<string>, bri: nat, sat: nat, hue: nat, transitionTime: nat)
    | LightOff(light: Option<string>)
    | MpdConnect(host: string, port: nat)
    | MpdClear
    | MpdLoad(playlist: string)
    | MpdShuffle
    | MpdPlay
    | MpdStop
    | MpdDisconnect
    | HttpGet(url: string)                  // requests.get(url)

  predicate IsTimerCall(e: Effect) {
    e.TimerAdd? || e.TimerRemove?
  }

  /** A stretch of trace that neither adds nor removes a timer. */
  predicate NoTimerCalls(t: seq<Effect>) {
    forall i :: 0 <= i < |t| ==> !IsTimerCall(t[i])
  }

  /** The timer source ids that are live after effect `e`, given those live before it. */
  function Apply(live: set<nat>, e: Effect): set<nat> {
    match e
    case TimerAdd(id, _) => live + {id}
    case TimerRemove(id) => live - {id}
    case _ => live
  }

  /** The timers live after replaying `t` from the live set `live`. */
  function Replay(live: set<nat>, t: seq<Effect>): set<nat>
    decreases |t|
  {
    if t == [] then live else Replay(Apply(live, t[0]), t[1..])
  }

  /** The timers a whole trace leaves live. */
  function Live(t: seq<Effect>): set<nat> {
    Replay({}, t)
  }

  /** Replaying two stretches of trace one after the other is replaying their concatenation. */
  lemma {:induction false} ReplayAppend(live: set<nat>, a: seq<Effect>, b: seq<Effect>)
    ensures Replay(live, a + b) == Replay(Replay(live, a), b)
    decreases |a|
  {
    if a == [] {
      assert a + b == b;
    } else {
      assert (a + b)[0] == a[0];
      assert (a + b)[1..] == a[1..] + b;
      ReplayAppend(Apply(live, a[0]), a[1..], b);
    }
  }

  /** A stretch without timer calls leaves the live set as it is. */
  lemma {:induction false} ReplayNoTimerCalls(live: set<nat>, t: seq<Effect>)
    requires NoTimerCalls(t)
    ensures Replay(live, t) == live
    decreases |t|
  {
    if t != [] {
      assert !IsTimerCall(t[0]);
      assert NoTimerCalls(t[1..]) by {
        forall i | 0 <= i < |t[1..]| ensures !IsTimerCall(t[1..][i]) {
          assert t[1..][i] == t[i + 1];
        }
      }
      ReplayNoTimerCalls(Apply(live, t[0]), t[1..]);
    }
  }

  /** Appending one effect to a trace changes its live timers by that effect alone. */
  lemma {:induction false} LiveAppendOne(t: seq<Effect>, e: Effect)
    ensures Live(t + [e]) == Apply(Live(t), e)
  {
    ReplayAppend({}, t, [e]);
    assert [e][1..] == [];
  }

  /** Appending a stretch without timer calls leaves the live timers of a trace as they are. */
  lemma {:induction false} LiveAppendNoTimerCalls(t: seq<Effect>, u: seq<Effect>)
    requires NoTimerCalls(u)
    ensures Live(t + u) == Live(t)
  {
    ReplayAppend({}, t, u);
    ReplayNoTimerCalls(Live(t), u);
  }
}
