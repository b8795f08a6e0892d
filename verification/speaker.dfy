/** The `Watcher` of watch_for_speaker.py: it reacts to the bluez
    "Connected" and "Disconnected" signals of one speaker by driving the Hue
    light, MPD and IFTTT, and keeps at most one speculative-reconnect timer. */
module Speaker {
  import opened Trace
  import opened Notify

  /** The only interface name whose signals the handlers act on. */
  const AudioSink: string := "org.bluez.AudioSink"
  /** The interval of the speculative-reconnect timer, in milliseconds. */
  const RetryIntervalMs: nat := 500
  const MpdHost: string := "localhost"
  const MpdPort: nat := 6600

  /** `"org.bluez.AudioSink" == iface`; `iface` is None when a signal carries no interface. */
  predicate Matches(iface: Option<string>) {
    iface == Some(AudioSink)
  }

  datatype SignalKind = ConnectedSignal | DisconnectedSignal

  /** One bluez signal delivered to the watcher. */
  datatype LinkSignal = LinkSignal(kind: SignalKind, iface: Option<string>)

  /** The kind of the most recent signal on the audio-sink interface, if any. */
  function LastMatching(h: seq<LinkSignal>): Option<SignalKind> {
    if h == [] then None
    else if Matches(h[|h| - 1].iface) then Some(h[|h| - 1].kind)
    else LastMatching(h[..|h| - 1])
  }

  /** The timer ids a handle stands for: none or one. */
  function HandleSet(handle: Option<nat>): set<nat> {
    match handle
    case None => {}
    case Some(id) => {id}
  }

  /** Every timer id armed in `t` is below `n`: an id from `n` on is fresh. */
  predicate IdsBelow(t: seq<Effect>, n: nat) {
    forall i :: 0 <= i < |t| && t[i].TimerAdd? ==> t[i].id < n
  }

  /** Light, then MPD, when the speaker connects: the Hue scene
      bri=254, sat=120, hue=100, on, transitiontime=5, then clear, load the
      playlist, shuffle and play over one MPD connection. */
  function PlayEffects(light: Option<string>, playlist: string): (r: seq<Effect>)
    ensures NoTimerCalls(r)
  {
    [LightOn(light, 254, 120, 100, 5), MpdConnect(MpdHost, MpdPort),
     MpdClear, MpdLoad(playlist), MpdShuffle, MpdPlay, MpdDisconnect]
  }

  /** Light off, then MPD stop over one connection, when the speaker disconnects. */
  function StopEffects(light: Option<string>): (r: seq<Effect>)
    ensures NoTimerCalls(r)
  {
    [LightOff(light), MpdConnect(MpdHost, MpdPort), MpdStop, MpdDisconnect]
  }

  class Watcher {
    // configuration, fixed at construction
    const playlistName: string
    const hueIp: Option<string>
    const light: Option<string>
    const iftttKey: Option<string>
    const iftttEvents: EventIds

    /** `_speculative_event_id`: the gobject source id of the reconnect timer, or None. */
    var speculativeEventId: Option<nat>
    /** The source id gobject hands out next; gobject never reuses a live one. */
    var nextSourceId: nat
    /** Every effect performed so far, oldest first. */
    var effects: seq<Effect>
    /** Every signal delivered so far, oldest first. */
    ghost var signals: seq<LinkSignal>

    /** The timer handle is the only live timer, every timer id in the trace
        came from the counter, and the handle is None exactly when the last
        audio-sink signal was "Connected". */
    ghost predicate Valid()
      reads this
    {
      && Live(effects) == HandleSet(speculativeEventId)
      && IdsBelow(effects, nextSourceId)
      && (speculativeEventId.None? <==> LastMatching(signals) == Some(ConnectedSignal))
    }

    /** `if hue_ip:` in the constructor: a Hue bridge is in use. */
    predicate HueConfigured() {
      Truthy(hueIp)
    }

    /** The first part of `__init__`: keep the configuration and arm the
        speculative-reconnect timer, whose id gobject gives as `firstSourceId`. */
    constructor (playlistName: string, hueIp: Option<string>, hueLamp: Option<string>,
                 iftttKey: Option<string>, iftttEvents: EventIds, firstSourceId: nat)
      ensures Valid()
      ensures this.playlistName == playlistName && this.hueIp == hueIp && this.light == hueLamp
      ensures this.iftttKey == iftttKey && this.iftttEvents == iftttEvents
      ensures speculativeEventId == Some(firstSourceId) && nextSourceId == firstSourceId + 1
      ensures effects == [TimerAdd(firstSourceId, RetryIntervalMs)]
      ensures signals == []
    {
      this.playlistName := playlistName;
      this.hueIp := hueIp;
      this.light := hueLamp;
      this.iftttKey := iftttKey;
      this.iftttEvents := iftttEvents;
      speculativeEventId := Some(firstSourceId);
      nextSourceId := firstSourceId + 1;
      effects := [TimerAdd(firstSourceId, RetryIntervalMs)];
      signals := [];
      assert [TimerAdd(firstSourceId, RetryIntervalMs)] == [] + [TimerAdd(firstSourceId, RetryIntervalMs)];
      LiveAppendOne([], TimerAdd(firstSourceId, RetryIntervalMs));
    }

    /** The whole of `__init__`: construct, then notify 'boot' as the last
        action. When `o` is Raised the Python constructor raises and the
        watcher is never used. */
    static method Create(playlistName: string, hueIp: Option<string>, hueLamp: Option<string>,
                         iftttKey: Option<string>, iftttEvents: EventIds, firstSourceId: nat,
                         bootOutcome: RequestOutcome)
      returns (w: Watcher, o: Outcome)
      ensures fresh(w) && w.Valid()
      ensures w.playlistName == playlistName && w.hueIp == hueIp && w.light == hueLamp
      ensures w.iftttKey == iftttKey && w.iftttEvents == iftttEvents
      ensures w.speculativeEventId == Some(firstSourceId) && w.nextSourceId == firstSourceId + 1
      ensures w.effects == [TimerAdd(firstSourceId, RetryIntervalMs)] + NotifyEffects(iftttKey, iftttEvents, Boot)
      ensures w.signals == []
      ensures o == NotifyOutcome(iftttKey, iftttEvents, Boot, bootOutcome)
    {
      w := new Watcher(playlistName, hueIp, hueLamp, iftttKey, iftttEvents, firstSourceId);
      o := w.Ifttt(Boot, bootOutcome);
    }

    /** `_ifttt(event)`: request the event's Maker URL when the key and the
        event's identifier are set; swallow a connect or read timeout and let
        any other failure propagate. Timers and the handle are untouched. */
    method Ifttt(event: NotifyEvent, outcome: RequestOutcome) returns (o: Outcome)
      requires Valid()
      modifies this`effects
      ensures Valid()
      ensures effects == old(effects) + NotifyEffects(iftttKey, iftttEvents, event)
      ensures o == NotifyOutcome(iftttKey, iftttEvents, event, outcome)
    {
      o := Returned;
      var url := Request(iftttKey, iftttEvents, event);
      if url.Some? {
        LiveAppendNoTimerCalls(effects, [HttpGet(url.value)]);
        effects := effects + [HttpGet(url.value)];
        match outcome {
          case ConnectTimeout =>
          case ReadTimeout =>
          case Responded =>
          case RequestError(name) => o := Raised(RequestException(name));
        }
      }
    }

    /** `connected(iface)`: on the audio sink, cancel the reconnect timer and
        clear the handle before anything else, then play and notify 'play'.
        Without a live handle, `source_remove(None)` raises before any effect.
        Any other interface changes nothing. */
    method Connected(iface: Option<string>, notify: RequestOutcome) returns (o: Outcome)
      requires Valid()
      requires Matches(iface) && speculativeEventId.Some? ==> HueConfigured()
      modifies this`speculativeEventId, this`effects, this`signals
      ensures Valid()
      ensures signals == old(signals) + [LinkSignal(ConnectedSignal, iface)]
      ensures !Matches(iface) ==>
        speculativeEventId == old(speculativeEventId) && effects == old(effects) && o == Returned
      ensures Matches(iface) && old(speculativeEventId).None? ==>
        speculativeEventId == None && effects == old(effects) && o == Raised(TypeError)
      ensures Matches(iface) && old(speculativeEventId).Some? ==>
        && speculativeEventId == None
        && effects == old(effects) + [TimerRemove(old(speculativeEventId).value)]
                      + PlayEffects(light, playlistName) + NotifyEffects(iftttKey, iftttEvents, Play)
        && o == NotifyOutcome(iftttKey, iftttEvents, Play, notify)
    {
      signals := signals + [LinkSignal(ConnectedSignal, iface)];
      assert signals[..|signals| - 1] == old(signals);
      if !Matches(iface) {
        return Returned;
      }
      if speculativeEventId.None? {
        return Raised(TypeError);
      }
      var id := speculativeEventId.value;
      LiveAppendOne(effects, TimerRemove(id));
      effects := effects + [TimerRemove(id)];
      speculativeEventId := None;
      ghost var cancelled := effects;
      LiveAppendNoTimerCalls(cancelled, PlayEffects(light, playlistName));
      effects := effects + [LightOn(light, 254, 120, 100, 5)];
      effects := effects + [MpdConnect(MpdHost, MpdPort)];
      effects := effects + [MpdClear];
      effects := effects + [MpdLoad(playlistName)];
      effects := effects + [MpdShuffle];
      effects := effects + [MpdPlay];
      effects := effects + [MpdDisconnect];
      assert effects == cancelled + PlayEffects(light, playlistName);
      o := Ifttt(Play, notify);
    }

    /** `disconnected(iface)`: on the audio sink, turn the light off and stop
        MPD on every such signal, arm a new 500 ms reconnect timer only when
        no handle is live, then notify 'stop' as the last action. Any other
        interface changes nothing. */
    method Disconnected(iface: Option<string>, notify: RequestOutcome) returns (o: Outcome)
      requires Valid()
      requires Matches(iface) ==> HueConfigured()
      modifies this`speculativeEventId, this`nextSourceId, this`effects, this`signals
      ensures Valid()
      ensures signals == old(signals) + [LinkSignal(DisconnectedSignal, iface)]
      ensures !Matches(iface) ==>
        && speculativeEventId == old(speculativeEventId) && nextSourceId == old(nextSourceId)
        && effects == old(effects) && o == Returned
      ensures Matches(iface) && old(speculativeEventId).Some? ==>
        && speculativeEventId == old(speculativeEventId) && nextSourceId == old(nextSourceId)
        && effects == old(effects) + StopEffects(light) + NotifyEffects(iftttKey, iftttEvents, Stop)
      ensures Matches(iface) && old(speculativeEventId).None? ==>
        && speculativeEventId == Some(old(nextSourceId)) && nextSourceId == old(nextSourceId) + 1
        && (forall e | e in old(effects) :: !(e.TimerAdd? && e.id == old(nextSourceId)))
        && effects == old(effects) + StopEffects(light) + [TimerAdd(old(nextSourceId), RetryIntervalMs)]
                      + NotifyEffects(iftttKey, iftttEvents, Stop)
      ensures Matches(iface) ==> o == NotifyOutcome(iftttKey, iftttEvents, Stop, notify)
    {
      signals := signals + [LinkSignal(DisconnectedSignal, iface)];
      assert signals[..|signals| - 1] == old(signals);
      if !Matches(iface) {
        return Returned;
      }
      ghost var before := effects;
      LiveAppendNoTimerCalls(before, StopEffects(light));
      effects := effects + [LightOff(light)];
      effects := effects + [MpdConnect(MpdHost, MpdPort)];
      effects := effects + [MpdStop];
      effects := effects + [MpdDisconnect];
      assert effects == before + StopEffects(light);
      if speculativeEventId.None? {
        var id := nextSourceId;
        LiveAppendOne(effects, TimerAdd(id, RetryIntervalMs));
        effects := effects + [TimerAdd(id, RetryIntervalMs)];
        nextSourceId := nextSourceId + 1;
        speculativeEventId := Some(id);
      }
      o := Ifttt(Stop, notify);
    }
  }
}
