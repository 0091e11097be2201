/** The HTTP handler's event counters. */
module Metrics {
  import opened Audit
  import opened Text

  const MAX_COUNTERS: nat := 4096

  datatype Key = Key(eventType: string, tenantId: string, connectorId: string, result: string, errorCode: string)

  type Counters = map<Key, nat>

  const OVERFLOW := Key("overflow", "overflow", "overflow", "overflow", "overflow")

  predicate LabelByte(c: char) {
    'a' <= c <= 'z' || 'A' <= c <= 'Z' || '0' <= c <= '9' || c == '_' || c == '-' || c == '.'
  }

  function Label(value: string, empty: string): string {
    if value == "" then empty
    else if |value| > 128 then "invalid"
    else if forall i :: 0 <= i < |value| ==> LabelByte(value[i]) then value
    else "invalid"
  }

  /** A label is kept as it is if it has 1 to 128 letters, digits, underscores, hyphens or dots. */
  ghost predicate Plain(value: string) {
    1 <= |value| <= 128 && forall i :: 0 <= i < |value| ==>
      'a' <= value[i] <= 'z' || 'A' <= value[i] <= 'Z' || '0' <= value[i] <= '9' || value[i] in "_-."
  }

  lemma LabelKeepsPlain(value: string, empty: string)
    ensures Plain(value) ==> Label(value, empty) == value
    ensures value == "" ==> Label(value, empty) == empty
    ensures value != "" && !Plain(value) ==> Label(value, empty) == "invalid"
  {
    if value != "" && |value| <= 128 && !Plain(value) {
      var i :| 0 <= i < |value| && !('a' <= value[i] <= 'z' || 'A' <= value[i] <= 'Z' || '0' <= value[i] <= '9' || value[i] in "_-.");
      assert !LabelByte(value[i]);
    }
  }

  /** Each label comes from its own field, and a missing error code stays empty. */
  lemma KeyHasTheEventsLabels(e: Event)
    ensures Plain(e.tenantId) ==> KeyOf(e).tenantId == e.tenantId
    ensures Plain(e.connectorId) ==> KeyOf(e).connectorId == e.connectorId
    ensures Plain(e.result) ==> KeyOf(e).result == e.result
    ensures Plain(e.errorCode) ==> KeyOf(e).errorCode == e.errorCode
    ensures Plain(e.eventType.Name()) ==> KeyOf(e).eventType == e.eventType.Name()
    ensures e.tenantId == "" ==> KeyOf(e).tenantId == "unknown"
    ensures e.connectorId == "" ==> KeyOf(e).connectorId == "unknown"
    ensures e.result == "" ==> KeyOf(e).result == "unknown"
    ensures e.errorCode == "" ==> KeyOf(e).errorCode == ""
  {
    LabelKeepsPlain(e.tenantId, "unknown");
    LabelKeepsPlain(e.connectorId, "unknown");
    LabelKeepsPlain(e.result, "unknown");
    LabelKeepsPlain(e.errorCode, "");
    LabelKeepsPlain(e.eventType.Name(), "unknown");
  }

  function KeyOf(e: Event): Key {
    Key(Label(e.eventType.Name(), "unknown"), Label(e.tenantId, "unknown"), Label(e.connectorId, "unknown"),
        Label(e.result, "unknown"), Label(e.errorCode, ""))
  }

  /** The counter an event goes to. */
  function Slot(counters: Counters, key: Key): Key {
    if key !in counters && |counters| >= MAX_COUNTERS then OVERFLOW else key
  }

  function Recorded(counters: Counters, e: Event): Counters {
    var slot := Slot(counters, KeyOf(e));
    counters[slot := (if slot in counters then counters[slot] else 0) + 1]
  }

  function After(events: seq<Event>): Counters {
    if events == [] then map[]
    else Recorded(After(events[..|events| - 1]), events[|events| - 1])
  }

  function Count(events: seq<Event>, key: Key): nat {
    if events == [] then 0
    else Count(events[..|events| - 1], key) + (if KeyOf(events[|events| - 1]) == key then 1 else 0)
  }

  ghost function Sum(m: Counters): nat {
    if m == map[] then 0
    else
      var k :| k in m;
      m[k] + Sum(m - {k})
  }

  lemma {:induction false} SumRemove(m: Counters, k: Key)
    requires k in m
    ensures Sum(m) == m[k] + Sum(m - {k})
    decreases |m|
  {
    var first :| first in m && Sum(m) == m[first] + Sum(m - {first});
    if first != k {
      SumRemove(m - {first}, k);
      SumRemove(m - {k}, first);
      assert m - {first} - {k} == m - {k} - {first};
    }
  }

  /** Every event is counted once. */
  lemma {:induction false} TotalIsEvents(events: seq<Event>)
    ensures Sum(After(events)) == |events|
  {
    if events != [] {
      var before := After(events[..|events| - 1]);
      var after := After(events);
      var slot := Slot(before, KeyOf(events[|events| - 1]));
      TotalIsEvents(events[..|events| - 1]);
      SumRemove(after, slot);
      if slot in before {
        SumRemove(before, slot);
        assert after - {slot} == before - {slot};
      } else {
        assert after - {slot} == before;
      }
    }
  }

  /** The store never holds more than one counter beyond the limit, an admitted counter counts exactly
      the events with its labels, and labels are turned away only when the store is full. */
  lemma {:induction false} CountersAreExact(events: seq<Event>)
    ensures var m := After(events);
      && |m| <= 4097
      && (|m| == 4097 ==> OVERFLOW in m)
      && (forall k :: k in m && k != OVERFLOW ==> m[k] == Count(events, k))
      && (forall k :: k !in m && Count(events, k) > 0 ==> |m| >= 4096 && OVERFLOW in m)
  {
    if events != [] {
      var n := |events| - 1;
      CountersAreExact(events[..n]);
      var before := After(events[..n]);
      var slot := Slot(before, KeyOf(events[n]));
      var after := After(events);
      assert after.Keys == before.Keys + {slot};
      forall k | k in after && k != OVERFLOW ensures after[k] == Count(events, k) {
        assert k !in before ==> Count(events[..n], k) == 0;
      }
    }
  }

  // ----- printing

  function SortKey(k: Key): string {
    Join([k.eventType, k.tenantId, k.connectorId, k.result, k.errorCode], '\0')
  }

  ghost predicate Printable(k: Key) {
    && Without(k.eventType, '\0') && Without(k.tenantId, '\0') && Without(k.connectorId, '\0')
    && Without(k.result, '\0') && Without(k.errorCode, '\0')
  }

  /** Counters are ordered by event type, tenant, connector, result and error code, in this order. */
  lemma SortKeyHasFieldsInOrder(k: Key)
    requires Printable(k)
    ensures Split(SortKey(k), '\0') == [k.eventType, k.tenantId, k.connectorId, k.result, k.errorCode]
  {
    SplitJoin([k.eventType, k.tenantId, k.connectorId, k.result, k.errorCode], '\0');
  }

  lemma SortKeyIsInjective(a: Key, b: Key)
    requires Printable(a) && Printable(b) && SortKey(a) == SortKey(b)
    ensures a == b
  {
    var x := [a.eventType, a.tenantId, a.connectorId, a.result, a.errorCode];
    var y := [b.eventType, b.tenantId, b.connectorId, b.result, b.errorCode];
    SplitJoin(x, '\0');
    SplitJoin(y, '\0');
    assert x == y;
    assert a.eventType == x[0] && a.tenantId == x[1] && a.connectorId == x[2] && a.result == x[3] && a.errorCode == x[4];
  }

  lemma LabelIsPrintable(value: string, empty: string)
    requires Without(empty, '\0')
    ensures Without(Label(value, empty), '\0')
  {
    assert forall c :: LabelByte(c) ==> c != '\0';
    assert Without("invalid", '\0');
  }

  lemma KeyIsPrintable(e: Event)
    ensures Printable(KeyOf(e))
  {
    LabelIsPrintable(e.eventType.Name(), "unknown");
    LabelIsPrintable(e.tenantId, "unknown");
    LabelIsPrintable(e.connectorId, "unknown");
    LabelIsPrintable(e.result, "unknown");
    LabelIsPrintable(e.errorCode, "");
  }

  lemma {:induction false} StoredKeysArePrintable(events: seq<Event>, k: Key)
    requires k in After(events)
    ensures Printable(k)
  {
    var n := |events| - 1;
    if k in After(events[..n]) {
      StoredKeysArePrintable(events[..n], k);
    } else if k != OVERFLOW {
      KeyIsPrintable(events[n]);
    }
  }

  /** The keys in the order they are printed. */
  ghost predicate Listing(m: Counters, keys: seq<Key>) {
    SortedBy(SortKey, keys) && multiset(keys) == multiset(m.Keys)
  }

  /** Any sorted listing of the stored keys is the same listing: the exposition does not depend on the
      order in which the map is walked. */
  lemma ListingIsUnique(events: seq<Event>, a: seq<Key>, b: seq<Key>)
    requires Listing(After(events), a) && Listing(After(events), b)
    ensures a == b
  {
    forall x, y | x in a && y in a && SortKey(x) == SortKey(y) ensures x == y {
      assert x in multiset(a) && y in multiset(a);
      StoredKeysArePrintable(events, x);
      StoredKeysArePrintable(events, y);
      SortKeyIsInjective(x, y);
    }
    SortedIsUnique(SortKey, a, b);
  }

  /** The keys of a map, walked in an arbitrary order. */
  method Collect(all: set<Key>) returns (collected: seq<Key>)
    ensures multiset(collected) == multiset(all)
  {
    var pending := all;
    collected := [];
    while pending != {}
      invariant multiset(collected) + multiset(pending) == multiset(all)
      decreases pending
    {
      var key :| key in pending;
      assert multiset(pending) == multiset(pending - {key}) + multiset{key};
      pending, collected := pending - {key}, collected + [key];
    }
  }

  class Store {
    var counters: Counters

    constructor ()
      ensures counters == map[]
    {
      counters := map[];
    }

    method Record(e: Event)
      modifies this
      ensures counters == Recorded(old(counters), e)
    {
      var key := KeyOf(e);
      if key !in counters && |counters| >= MAX_COUNTERS {
        key := OVERFLOW;
      }
      counters := counters[key := (if key in counters then counters[key] else 0) + 1];
    }

    /** Walks the map in an arbitrary order, sorts the keys and prints one line per key. */
    method Prometheus() returns (keys: seq<Key>, values: seq<nat>)
      ensures Listing(counters, keys) && |values| == |keys|
      ensures forall i :: 0 <= i < |keys| ==> keys[i] in counters && values[i] == counters[keys[i]]
    {
      var collected := Collect(counters.Keys);
      keys, values := SortBy(SortKey, collected), [];
      for i := 0 to |keys|
        invariant |values| == i && multiset(keys) == multiset(counters.Keys)
        invariant forall j :: 0 <= j < i ==> keys[j] in counters && values[j] == counters[keys[j]]
      {
        assert keys[i] in multiset(keys);
        assert keys[i] in multiset(counters.Keys);
        values := values + [counters[keys[i]]];
      }
    }
  }
}
