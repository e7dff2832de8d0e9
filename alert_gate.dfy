/**
 * Alert de-duplication in the notification receiver: a per-alert slot in a
 * key-value store. A firing alert is sent when its slot is empty and then
 * fills the slot with the send time; while the slot is filled the same alert
 * is suppressed; a resolved alert empties the slot and is always sent. The
 * store's five-minute expiry is an explicit `Expire` step.
 */
module AlertGate {
  import opened Values

  /** `f"alert:{alert_key}"`. */
  function CacheKey(alertKey: string): string
  {
    "alert:" + alertKey
  }

  /** Two alert keys share a slot only when they are the same key. */
  lemma CacheKeyInjective(k1: string, k2: string)
    ensures CacheKey(k1) == CacheKey(k2) <==> k1 == k2
  {
    if CacheKey(k1) == CacheKey(k2) {
      assert k1 == CacheKey(k1)[6..];
    }
  }

  /** `if last_sent:`: the slot holds a value and that value is not empty. */
  predicate Suppressed(store: map<string, string>, cacheKey: string)
  {
    cacheKey in store && store[cacheKey] != ""
  }

  /** The answer of `should_send_alert` together with the store it leaves behind. */
  datatype Verdict = Verdict(send: bool, store: map<string, string>)

  /** `should_send_alert(alert_key, alert_status)` at wall-clock time `now`. */
  function Gate(store: map<string, string>, alertKey: string, status: string, now: string): (v: Verdict)
    ensures v.send <==> status == "resolved" || (status == "firing" && !Suppressed(store, CacheKey(alertKey)))
    ensures v.store.Keys <= store.Keys + {CacheKey(alertKey)}
  {
    var cacheKey := CacheKey(alertKey);
    if status == "firing" then
      if Suppressed(store, cacheKey) then Verdict(false, store)
      else Verdict(true, store[cacheKey := now])
    else if status == "resolved" then
      Verdict(true, store - {cacheKey})
    else
      Verdict(false, store)
  }

  /**
   * What one call decides and leaves behind: a firing alert is sent exactly
   * when its slot is not filled, and then fills it; a resolved alert is sent
   * and empties its slot; anything else is dropped and changes nothing.
   */
  lemma GateOutcome(store: map<string, string>, alertKey: string, status: string, now: string)
    requires now != ""
    ensures var v := Gate(store, alertKey, status, now);
      && (status == "firing" ==> (v.send <==> !Suppressed(store, CacheKey(alertKey))))
      && (status == "firing" ==> Suppressed(v.store, CacheKey(alertKey)))
      && (status == "firing" && !v.send ==> v.store == store)
      && (status == "resolved" ==> v.send && CacheKey(alertKey) !in v.store)
      && (status != "firing" && status != "resolved" ==> !v.send && v.store == store)
  {
  }

  /** No call touches a slot other than its own. */
  lemma GateFrame(store: map<string, string>, alertKey: string, status: string, now: string, key: string)
    requires key != CacheKey(alertKey)
    ensures var v := Gate(store, alertKey, status, now);
      && (key in v.store <==> key in store)
      && (key in store ==> v.store[key] == store[key])
  {
  }

  /** Two firings of one alert in a row are sent at most once. */
  lemma FiringTwiceSendsOnce(store: map<string, string>, alertKey: string, now1: string, now2: string)
    requires now1 != ""
    ensures var v1 := Gate(store, alertKey, "firing", now1);
      var v2 := Gate(v1.store, alertKey, "firing", now2);
      !(v1.send && v2.send) && (v1.send ==> v2.store == v1.store)
  {
  }

  /** After a resolve, the next firing of the same alert is sent again. */
  lemma ResolvedRearms(store: map<string, string>, alertKey: string, now1: string, now2: string)
    ensures var v1 := Gate(store, alertKey, "resolved", now1);
      Gate(v1.store, alertKey, "firing", now2).send
  {
  }

  /** The store behind `should_send_alert`, one slot per alert key. */
  class DedupStore {
    var store: map<string, string>

    /** A client on the shared database: it sees whatever slots earlier processes left there. */
    constructor(initial: map<string, string>)
      ensures store == initial
    {
      store := initial;
    }

    /** `should_send_alert`; `now` stands for `datetime.now().isoformat()`. */
    method ShouldSendAlert(alertKey: string, alertStatus: string, now: string) returns (send: bool)
      modifies this
      ensures send == Gate(old(store), alertKey, alertStatus, now).send
      ensures store == Gate(old(store), alertKey, alertStatus, now).store
    {
      var cacheKey := "alert:" + alertKey;
      if alertStatus == "firing" {
        var lastSent := if cacheKey in store then Some(store[cacheKey]) else None;
        if Truthy(lastSent) {
          return false;
        }
        store := store[cacheKey := now];
        return true;
      } else if alertStatus == "resolved" {
        store := store - {cacheKey};
        return true;
      }
      return false;
    }

    /** The store drops a slot whose time-to-live has run out. */
    method Expire(cacheKey: string)
      modifies this
      ensures store == old(store) - {cacheKey}
    {
      store := store - {cacheKey};
    }
  }

  /** One thing that happens to the store: a call of the gate, or an expiry. */
  datatype Event =
    | Notify(alertKey: string, status: string, now: string)
    | Expiry(cacheKey: string)

  /** The store after one event. */
  function Apply(store: map<string, string>, e: Event): map<string, string>
  {
    match e
    case Notify(k, s, now) => Gate(store, k, s, now).store
    case Expiry(c) => store - {c}
  }

  /** The store after a sequence of events. */
  function Final(store: map<string, string>, events: seq<Event>): map<string, string>
    decreases |events|
  {
    if events == [] then store
    else Apply(Final(store, events[..|events| - 1]), events[|events| - 1])
  }

  /** How many firing notifications of `alertKey` the gate lets through. */
  function FiringSends(store: map<string, string>, events: seq<Event>, alertKey: string): nat
    decreases |events|
  {
    if events == [] then 0
    else
      var n := |events| - 1;
      var e := events[n];
      FiringSends(store, events[..n], alertKey)
      + (if e.Notify? && e.alertKey == alertKey && e.status == "firing"
            && Gate(Final(store, events[..n]), alertKey, "firing", e.now).send then 1 else 0)
  }

  /** How many events empty the slot of `alertKey`: resolves of it and expiries of its slot. */
  function Clears(events: seq<Event>, alertKey: string): nat
    decreases |events|
  {
    if events == [] then 0
    else
      var n := |events| - 1;
      var e := events[n];
      Clears(events[..n], alertKey)
      + (if (e.Notify? && e.alertKey == alertKey && e.status == "resolved")
            || (e.Expiry? && e.cacheKey == CacheKey(alertKey)) then 1 else 0)
  }

  /** Every firing notification carries a non-empty send time. */
  predicate Stamped(events: seq<Event>)
  {
    forall i :: 0 <= i < |events| && events[i].Notify? ==> events[i].now != ""
  }

  function Filled(store: map<string, string>, alertKey: string): nat
  {
    if Suppressed(store, CacheKey(alertKey)) then 1 else 0
  }

  /**
   * Every firing that is sent fills the slot, and only a resolve or an
   * expiry empties it again: sends are paid for by clears.
   */
  lemma {:induction false} SendsBoundedByClears(store: map<string, string>, events: seq<Event>, alertKey: string)
    requires Stamped(events)
    ensures FiringSends(store, events, alertKey) + Filled(store, alertKey)
      <= Filled(Final(store, events), alertKey) + Clears(events, alertKey)
    decreases |events|
  {
    if events != [] {
      var n := |events| - 1;
      var e := events[n];
      var before := Final(store, events[..n]);
      assert Stamped(events[..n]) by {
        forall i | 0 <= i < n && events[..n][i].Notify?
          ensures events[..n][i].now != ""
        {
          assert events[..n][i] == events[i];
        }
      }
      SendsBoundedByClears(store, events[..n], alertKey);
      var ck := CacheKey(alertKey);
      match e
      case Notify(k, s, now) =>
        if k != alertKey {
          CacheKeyInjective(k, alertKey);
          GateFrame(before, k, s, now, ck);
        } else {
          assert events[n].now != "";
          GateOutcome(before, k, s, now);
        }
      case Expiry(c) =>
    }
  }

  /**
   * Without a resolve or an expiry in between, a firing alert reaches the
   * platforms at most once, whatever else happens to the store.
   */
  lemma AtMostOneSendWithoutClears(store: map<string, string>, events: seq<Event>, alertKey: string)
    requires Stamped(events)
    requires Clears(events, alertKey) == 0
    ensures FiringSends(store, events, alertKey) <= 1
    ensures Suppressed(store, CacheKey(alertKey)) ==> FiringSends(store, events, alertKey) == 0
  {
    SendsBoundedByClears(store, events, alertKey);
  }

  /** `f"{instance}_{alertname}"`, each label defaulting to 'unknown'. */
  function AlertKey(labels: map<string, string>): (k: string)
    ensures var i := Lookup(labels, "instance", "unknown");
      && |i| < |k| && k[..|i|] == i && k[|i|] == '_'
      && k[|i| + 1..] == Lookup(labels, "alertname", "unknown")
  {
    Lookup(labels, "instance", "unknown") + "_" + Lookup(labels, "alertname", "unknown")
  }

  /** `alert.get('status', 'unknown')`. */
  function AlertStatus(status: Option<string>): (s: string)
    ensures status.Some? ==> s == status.value
    ensures status.None? ==> s == "unknown"
  {
    GetOr(status, "unknown")
  }

  /** An alert without labels or status lands in the slot "unknown_unknown" and is dropped by the gate. */
  lemma UnlabelledAlert(store: map<string, string>, now: string)
    ensures AlertKey(map[]) == "unknown_unknown"
    ensures !Gate(store, AlertKey(map[]), AlertStatus(None), now).send
    ensures Gate(store, AlertKey(map[]), AlertStatus(None), now).store == store
  {
  }

  /** When the instance holds no underscore, the key tells instance and alert name apart. */
  lemma AlertKeySplits(labels1: map<string, string>, labels2: map<string, string>)
    requires '_' !in Lookup(labels1, "instance", "unknown")
    requires '_' !in Lookup(labels2, "instance", "unknown")
    requires AlertKey(labels1) == AlertKey(labels2)
    ensures Lookup(labels1, "instance", "unknown") == Lookup(labels2, "instance", "unknown")
    ensures Lookup(labels1, "alertname", "unknown") == Lookup(labels2, "alertname", "unknown")
  {
    var i1, i2 := Lookup(labels1, "instance", "unknown"), Lookup(labels2, "instance", "unknown");
    var a1, a2 := Lookup(labels1, "alertname", "unknown"), Lookup(labels2, "alertname", "unknown");
    var key := AlertKey(labels1);
    assert key[|i1|] == '_' && key[|i2|] == '_';
    // the first underscore of the key ends the instance
    assert |i1| == |i2|;
    assert i1 == key[..|i1|] && i2 == key[..|i2|];
    assert a1 == key[|i1| + 1..] && a2 == key[|i2| + 1..];
  }

  /** An underscore in the instance makes two different alerts share one slot. */
  lemma AlertKeyCollision()
    ensures var l1 := map["instance" := "host_a", "alertname" := "Down"];
      var l2 := map["instance" := "host", "alertname" := "a_Down"];
      l1 != l2 && AlertKey(l1) == AlertKey(l2)
  {
    var l1 := map["instance" := "host_a", "alertname" := "Down"];
    var l2 := map["instance" := "host", "alertname" := "a_Down"];
    assert l1["instance"] != l2["instance"];
  }
}
