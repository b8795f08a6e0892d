/** The IFTTT notification gate of watch_for_speaker.py: whether `_ifttt`
    makes a request for an event, the URL it requests, and which failures of
    that request it swallows. */
module Notify {
  import opened Trace

  /** The three dictionary keys of `ifttt_maker_events`. */
  datatype NotifyEvent = Boot | Play | Stop

  /** The IFTTT Maker event identifiers configured for boot, play and stop;
      each may be missing, as an unset command-line option is. */
  datatype EventIds = EventIds(boot: Option<string>, play: Option<string>, stop: Option<string>)

  function EventId(ids: EventIds, event: NotifyEvent): Option<string> {
    match event
    case Boot => ids.boot
    case Play => ids.play
    case Stop => ids.stop
  }

  /** Python truthiness of an optional string: set and not empty. */
  predicate Truthy(s: Option<string>) {
    s.Some? && s.value != ""
  }

  const TriggerPrefix: string := "https://maker.ifttt.com/trigger/"
  const KeyInfix: string := "/with/key/"

  /** The Maker webhook URL for an event identifier and a maker key. */
  function Url(eventId: string, key: string): string {
    TriggerPrefix + eventId + KeyInfix + key
  }

  /** Position by position, the URL is the prefix, the identifier, then the infix. */
  lemma UrlAt(eventId: string, key: string, i: nat)
    requires i <= |eventId|
    ensures |Url(eventId, key)| > |TriggerPrefix| + i
    ensures Url(eventId, key)[|TriggerPrefix| + i] == if i < |eventId| then eventId[i] else '/'
  {
  }

  /** When one identifier is shorter than another with the same URL, the
      longer one has '/' where the shorter one ends. */
  lemma ShorterIdHasSlash(id1: string, key1: string, id2: string, key2: string)
    requires |id1| < |id2|
    requires Url(id1, key1) == Url(id2, key2)
    ensures id2[|id1|] == '/'
  {
    UrlAt(id1, key1, |id1|);
    UrlAt(id2, key2, |id1|);
  }

  /** The URL is unambiguous: an event identifier without '/' and the key
      can both be read back from it. */
  lemma UrlInjective(id1: string, key1: string, id2: string, key2: string)
    requires '/' !in id1 && '/' !in id2
    requires Url(id1, key1) == Url(id2, key2)
    ensures id1 == id2 && key1 == key2
  {
    if |id1| < |id2| {
      ShorterIdHasSlash(id1, key1, id2, key2);
      assert false;
    } else if |id2| < |id1| {
      ShorterIdHasSlash(id2, key2, id1, key1);
      assert false;
    } else {
      var u := Url(id1, key1);
      var p := |TriggerPrefix|;
      assert u == TriggerPrefix + id1 + KeyInfix + key1;
      assert u == TriggerPrefix + id2 + KeyInfix + key2;
      assert id1 == u[p..p + |id1|] == id2;
      var k := p + |id1| + |KeyInfix|;
      assert key1 == u[k..] == key2;
    }
  }

  /** The URL `_ifttt(event)` requests, or None when it does nothing: a
      request is made only when the maker key and the event's identifier are
      both set and not empty. */
  function Request(key: Option<string>, ids: EventIds, event: NotifyEvent): (r: Option<string>)
    ensures r.Some? <==> Truthy(key) && Truthy(EventId(ids, event))
    ensures r.Some? ==> r.value == Url(EventId(ids, event).value, key.value)
  {
    if Truthy(key) && Truthy(EventId(ids, event)) then
      Some(Url(EventId(ids, event).value, key.value))
    else
      None
  }

  /** Two configurations that make `_ifttt` request the same URL have the
      same maker key and the same event identifier, when identifiers contain no '/'. */
  lemma RequestInjective(key1: Option<string>, ids1: EventIds, event1: NotifyEvent,
                         key2: Option<string>, ids2: EventIds, event2: NotifyEvent)
    requires Request(key1, ids1, event1).Some? && Request(key1, ids1, event1) == Request(key2, ids2, event2)
    requires '/' !in EventId(ids1, event1).value && '/' !in EventId(ids2, event2).value
    ensures key1 == key2 && EventId(ids1, event1) == EventId(ids2, event2)
  {
    UrlInjective(EventId(ids1, event1).value, key1.value, EventId(ids2, event2).value, key2.value);
  }

  /** How the call to requests.get ends, supplied from outside the model. */
  datatype RequestOutcome =
    | Responded
    | ConnectTimeout
    | ReadTimeout
    | RequestError(name: string)   // any other requests or socket error

  /** The effects `_ifttt(event)` adds to the trace: one request or none. */
  function NotifyEffects(key: Option<string>, ids: EventIds, event: NotifyEvent): (r: seq<Effect>)
    ensures NoTimerCalls(r)
    ensures r == [] <==> !(Truthy(key) && Truthy(EventId(ids, event)))
    ensures r != [] ==> r == [HttpGet(Url(EventId(ids, event).value, key.value))]
  {
    match Request(key, ids, event)
    case None => []
    case Some(url) => [HttpGet(url)]
  }

  /** How `_ifttt(event)` ends: timeouts are swallowed (logged only), any
      other failure of a request that was made propagates to the caller. */
  function NotifyOutcome(key: Option<string>, ids: EventIds, event: NotifyEvent, outcome: RequestOutcome): (o: Outcome)
    ensures o.Raised? <==> NotifyEffects(key, ids, event) != [] && outcome.RequestError?
    ensures o.Raised? ==> o.exc == RequestException(outcome.name)
    ensures outcome.ConnectTimeout? || outcome.ReadTimeout? ==> o == Returned
  {
    if Request(key, ids, event).None? then Returned
    else
      match outcome
      case RequestError(name) => Raised(RequestException(name))
      case _ => Returned
  }
}
