/** The replay cache shared by the HTTP handler and the relay client.

    `Remember` reads the clock before it takes the mutex, so the reading a critical
    section works with may be older than the moment the section runs.  A `Call` keeps
    both: `now` is the reading, `at` the moment the lock is held. */
module Replay {
  import opened Clock

  type Entries = map<string, Time>

  /** One execution of the locked body of `Remember`. */
  datatype Call = Call(key: string, now: Time, at: Time)

  /** The entries that survive the eviction loop run with reading `now`. */
  function Purge(entries: Entries, now: Time): Entries {
    map key | key in entries && now <= entries[key] :: entries[key]
  }

  predicate Accepts(entries: Entries, key: string, now: Time) {
    key !in Purge(entries, now)
  }

  function Remembered(entries: Entries, ttl: Time, key: string, now: Time): Entries {
    if Accepts(entries, key, now) then Purge(entries, now)[key := now + ttl] else Purge(entries, now)
  }

  class Cache {
    const ttl: Time
    var entries: Entries

    constructor (ttl: Time)
      ensures this.ttl == ttl && entries == map[]
    {
      this.ttl := ttl;
      entries := map[];
    }

    /** The eviction loop visits the keys in an arbitrary order and deletes in place. */
    method Remember(key: string, now: Time) returns (ok: bool)
      modifies this
      ensures ok == Accepts(old(entries), key, now)
      ensures entries == Remembered(old(entries), ttl, key, now)
    {
      var pending := entries.Keys;
      while pending != {}
        invariant pending <= entries.Keys
        invariant entries.Keys <= old(entries).Keys
        invariant forall k :: k in entries ==> entries[k] == old(entries)[k]
        invariant forall k :: k in old(entries) ==> (k in entries <==> k in pending || now <= old(entries)[k])
        decreases pending
      {
        var entry :| entry in pending;
        if now > entries[entry] {
          entries := entries - {entry};
        }
        pending := pending - {entry};
      }
      assert entries == Purge(old(entries), now);
      ok := key !in entries;
      if ok {
        entries := entries[key := now + ttl];
      }
    }
  }

  // ----- the cache as a function of the log of calls, in lock order

  function After(calls: seq<Call>, ttl: Time): Entries {
    if calls == [] then map[]
    else
      var last := calls[|calls| - 1];
      Remembered(After(calls[..|calls| - 1], ttl), ttl, last.key, last.now)
  }

  predicate Accepted(calls: seq<Call>, ttl: Time, i: nat)
    requires i < |calls|
  {
    Accepts(After(calls[..i], ttl), calls[i].key, calls[i].now)
  }

  /** Lock order: sections run one after the other, each on a reading taken earlier. */
  ghost predicate LockOrder(calls: seq<Call>) {
    && (forall i :: 0 <= i < |calls| ==> calls[i].now <= calls[i].at)
    && (forall i, j :: 0 <= i < j < |calls| ==> calls[i].at <= calls[j].at)
  }

  ghost predicate FreshReadings(calls: seq<Call>) {
    forall i, j :: 0 <= i < j < |calls| ==> calls[i].now <= calls[j].now
  }

  /** A new call at the end leaves every earlier verdict as it was. */
  lemma LogGrows(calls: seq<Call>, ttl: Time, call: Call)
    requires LockOrder(calls) && call.now <= call.at && (forall i :: 0 <= i < |calls| ==> calls[i].at <= call.at)
    ensures LockOrder(calls + [call])
    ensures After(calls + [call], ttl) == Remembered(After(calls, ttl), ttl, call.key, call.now)
    ensures forall i :: 0 <= i < |calls| ==> Accepted(calls + [call], ttl, i) == Accepted(calls, ttl, i)
    ensures Accepted(calls + [call], ttl, |calls|) == Accepts(After(calls, ttl), call.key, call.now)
  {
    var longer := calls + [call];
    assert longer[..|calls|] == calls;
    forall i | 0 <= i < |calls| ensures Accepted(longer, ttl, i) == Accepted(calls, ttl, i) {
      assert longer[..i] == calls[..i];
    }
  }

  /** Every entry was put there by an acceptance of its key. */
  lemma {:induction false} EntriesComeFromAcceptances(calls: seq<Call>, ttl: Time, key: string) returns (i: nat)
    requires key in After(calls, ttl)
    ensures i < |calls| && calls[i].key == key && Accepted(calls, ttl, i)
    ensures After(calls, ttl)[key] == calls[i].now + ttl
  {
    var n := |calls| - 1;
    var before := calls[..n];
    if key == calls[n].key && Accepts(After(before, ttl), key, calls[n].now) {
      i := n;
    } else {
      i := EntriesComeFromAcceptances(before, ttl, key);
      assert before[..i] == calls[..i];
    }
  }

  /** An acceptance leaves an entry that lasts until a section runs later than reading + ttl. */
  lemma {:induction false} AcceptanceIsHeld(calls: seq<Call>, ttl: Time, i: nat)
    requires LockOrder(calls)
    requires i < |calls| && Accepted(calls, ttl, i)
    requires calls[|calls| - 1].at <= calls[i].now + ttl
    ensures calls[i].key in After(calls, ttl)
    ensures After(calls, ttl)[calls[i].key] >= calls[i].now + ttl
  {
    var n := |calls| - 1;
    if i < n {
      var before := calls[..n];
      assert before[..i] == calls[..i];
      AcceptanceIsHeld(before, ttl, i);
    }
  }

  /** No replay within the ttl, whatever readings the sections in between worked with. */
  lemma NoSecondAcceptance(calls: seq<Call>, ttl: Time, i: nat, j: nat)
    requires LockOrder(calls)
    requires i < j < |calls| && calls[i].key == calls[j].key
    requires Accepted(calls, ttl, i) && Accepted(calls, ttl, j)
    ensures calls[j].at > calls[i].now + ttl
  {
    if calls[j].at <= calls[i].now + ttl {
      var before := calls[..j];
      assert before[..i] == calls[..i];
      AcceptanceIsHeld(before, ttl, i);
      assert false;
    }
  }

  /** A rejection is always justified by an earlier acceptance that has not expired. */
  lemma RejectionIsJustified(calls: seq<Call>, ttl: Time, j: nat) returns (i: nat)
    requires j < |calls| && !Accepted(calls, ttl, j)
    ensures i < j && calls[i].key == calls[j].key && Accepted(calls, ttl, i)
    ensures calls[j].now <= calls[i].now + ttl
  {
    var before := calls[..j];
    i := EntriesComeFromAcceptances(before, ttl, calls[j].key);
    assert before[..i] == calls[..i];
  }

  /** What the cache holds after a call was accepted and has not expired. */
  lemma CachedIsLogged(calls: seq<Call>, ttl: Time, key: string) returns (i: nat)
    requires calls != [] && key in After(calls, ttl)
    ensures i < |calls| && calls[i].key == key && Accepted(calls, ttl, i)
    ensures After(calls, ttl)[key] == calls[i].now + ttl && calls[|calls| - 1].now <= calls[i].now + ttl
  {
    i := EntriesComeFromAcceptances(calls, ttl, key);
  }

  lemma {:induction false} LoggedIsCached(calls: seq<Call>, ttl: Time, i: nat)
    requires FreshReadings(calls) && i < |calls| && Accepted(calls, ttl, i)
    requires calls[|calls| - 1].now <= calls[i].now + ttl
    ensures calls[i].key in After(calls, ttl) && After(calls, ttl)[calls[i].key] == calls[i].now + ttl
  {
    var n := |calls| - 1;
    if i < n {
      var before := calls[..n];
      assert before[..i] == calls[..i];
      assert before[n - 1].now <= calls[n].now;
      LoggedIsCached(before, ttl, i);
    }
  }

  /** With readings in lock order the map is exactly the unexpired part of the acceptance log. */
  lemma CacheIsUnexpiredLog(calls: seq<Call>, ttl: Time, key: string, expiry: Time)
    requires FreshReadings(calls)
    ensures (key in After(calls, ttl) && After(calls, ttl)[key] == expiry)
      <==> exists i :: 0 <= i < |calls| && calls[i].key == key && Accepted(calls, ttl, i)
                    && expiry == calls[i].now + ttl && calls[|calls| - 1].now <= expiry
  {
    if calls != [] && key in After(calls, ttl) {
      var i := CachedIsLogged(calls, ttl, key);
    }
    forall i | 0 <= i < |calls| && calls[i].key == key && Accepted(calls, ttl, i) && calls[|calls| - 1].now <= calls[i].now + ttl
      ensures key in After(calls, ttl) && After(calls, ttl)[key] == calls[i].now + ttl
    {
      LoggedIsCached(calls, ttl, i);
    }
  }
}
