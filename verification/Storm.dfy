/** The fixed-window storm breaker of a connector (HTTP handler and relay client alike).  Real clock readings
    are positive: a window that starts at 0 is none. */
module Storm {
  import opened Clock

  datatype Kind = MalformedRequest | ReplayAttempt | DirectoryError

  /** What one breaker works with: window and block in nanoseconds, and its limit. */
  datatype Rule = Rule(window: Time, block: Time, limit: nat) {
    predicate Positive() { window > 0 && block > 0 && limit > 0 }
  }

  datatype Policy = Policy(windowMs: int, blockMs: int, malformedLimit: int, replayLimit: int, directoryLimit: int) {
    predicate Effective() {
      windowMs > 0 && blockMs > 0 && malformedLimit > 0 && replayLimit > 0 && directoryLimit > 0
    }

    function RuleFor(kind: Kind): (r: Rule)
      requires Effective()
      ensures r.Positive() && r.window == windowMs * 1_000_000 && r.block == blockMs * 1_000_000
      ensures kind.MalformedRequest? ==> r.limit == malformedLimit
      ensures kind.ReplayAttempt? ==> r.limit == replayLimit
      ensures kind.DirectoryError? ==> r.limit == directoryLimit
    {
      Rule(windowMs * MILLISECOND, blockMs * MILLISECOND,
           match kind
           case MalformedRequest => malformedLimit
           case ReplayAttempt => replayLimit
           case DirectoryError => directoryLimit)
    }
  }

  /** Non-positive settings fall back to the built-in ones. */
  function WithDefaults(p: Policy): (r: Policy)
    ensures r.Effective()
    ensures p.Effective() ==> r == p
    ensures p == Policy(0, 0, 0, 0, 0) ==> r == Policy(10_000, 30_000, 20, 10, 5)
    ensures r.windowMs == p.windowMs || (p.windowMs <= 0 && r.windowMs == 10_000)
    ensures r.blockMs == p.blockMs || (p.blockMs <= 0 && r.blockMs == 30_000)
    ensures r.malformedLimit == p.malformedLimit || (p.malformedLimit <= 0 && r.malformedLimit == 20)
    ensures r.replayLimit == p.replayLimit || (p.replayLimit <= 0 && r.replayLimit == 10)
    ensures r.directoryLimit == p.directoryLimit || (p.directoryLimit <= 0 && r.directoryLimit == 5)
  {
    Policy(
      if p.windowMs <= 0 then 10000 else p.windowMs,
      if p.blockMs <= 0 then 30000 else p.blockMs,
      if p.malformedLimit <= 0 then 20 else p.malformedLimit,
      if p.replayLimit <= 0 then 10 else p.replayLimit,
      if p.directoryLimit <= 0 then 5 else p.directoryLimit)
  }

  datatype State = State(windowStart: Time, count: nat, blockedUntil: Time)

  const QUIET := State(0, 0, 0)

  type States = map<Kind, State>

  function StateOf(states: States, kind: Kind): State {
    if kind in states then states[kind] else QUIET
  }

  predicate IsBlocked(s: State, now: Time) {
    s.blockedUntil != 0 && now < s.blockedUntil
  }

  /** A record opens a new window when none is open or the open one is too old. */
  predicate Rolls(r: Rule, s: State, now: Time) {
    s.windowStart == 0 || now - s.windowStart > r.window
  }

  function Recorded(r: Rule, s: State, now: Time): State {
    var start := if Rolls(r, s, now) then now else s.windowStart;
    var count := if Rolls(r, s, now) then 1 else s.count + 1;
    State(start, count, if count >= r.limit then now + r.block else s.blockedUntil)
  }

  class Breakers {
    const policy: Policy
    var states: States

    constructor (policy: Policy)
      ensures this.policy == WithDefaults(policy) && states == map[]
    {
      this.policy := WithDefaults(policy);
      states := map[];
    }

    method Blocked(kind: Kind, now: Time) returns (blocked: bool)
      ensures blocked == IsBlocked(StateOf(states, kind), now)
    {
      var state := StateOf(states, kind);
      if state.blockedUntil == 0 || !(now < state.blockedUntil) {
        return false;
      }
      return true;
    }

    method Record(kind: Kind, now: Time)
      requires policy.Effective()
      modifies this
      ensures states == old(states)[kind := Recorded(policy.RuleFor(kind), StateOf(old(states), kind), now)]
    {
      var rule := policy.RuleFor(kind);
      var state := StateOf(states, kind);
      if state.windowStart == 0 || now - state.windowStart > rule.window {
        state := state.(windowStart := now, count := 0);
      }
      state := state.(count := state.count + 1);
      if state.count >= rule.limit {
        state := state.(blockedUntil := now + rule.block);
      }
      states := states[kind := state];
    }

    method Reset(kind: Kind)
      modifies this
      ensures states == old(states) - {kind}
    {
      states := states - {kind};
    }
  }

  // ----- one breaker over a whole trace

  datatype Event = Record(at: Time) | Reset

  function After(r: Rule, trace: seq<Event>): State {
    if trace == [] then QUIET
    else
      match trace[|trace| - 1]
      case Record(at) => Recorded(r, After(r, trace[..|trace| - 1]), at)
      case Reset => QUIET
  }

  /** Positive readings that do not decrease, up to and including `last`. */
  ghost predicate ClockOrder(trace: seq<Event>, last: Time) {
    && (forall i :: 0 <= i < |trace| && trace[i].Record? ==> 0 < trace[i].at <= last)
    && (forall i, j :: 0 <= i < j < |trace| && trace[i].Record? && trace[j].Record? ==> trace[i].at <= trace[j].at)
  }

  ghost predicate OnlyRecords(trace: seq<Event>, lo: nat, hi: nat)
    requires lo <= hi <= |trace|
  {
    forall i :: lo <= i < hi ==> trace[i].Record?
  }

  /** `limit` consecutive records inside one window, the last of them at index `hi`. */
  ghost predicate Burst(r: Rule, trace: seq<Event>, lo: nat, hi: nat) {
    && lo <= hi < |trace|
    && OnlyRecords(trace, lo, |trace|)
    && hi - lo + 1 >= r.limit
    && trace[hi].at - trace[lo].at <= r.window
  }

  /** The open window starts at a record, and the count is the number of records since. */
  lemma {:induction false} WindowIsSuffix(r: Rule, trace: seq<Event>, last: Time)
    requires ClockOrder(trace, last)
    ensures var s := After(r, trace);
      && (s.windowStart == 0 ==> s == QUIET)
      && (s.windowStart != 0 ==>
            && 1 <= s.count <= |trace|
            && OnlyRecords(trace, |trace| - s.count, |trace|)
            && trace[|trace| - s.count].at == s.windowStart
            && trace[|trace| - 1].at - s.windowStart <= r.window)
  {
    if trace != [] {
      var before := trace[..|trace| - 1];
      WindowIsSuffix(r, before, last);
      var s := After(r, before);
      if s.windowStart != 0 && trace[|trace| - 1].Record? {
        assert trace[|before| - s.count] == before[|before| - s.count];
      }
    }
  }

  lemma {:induction false} BlockIsSetByBurst(r: Rule, trace: seq<Event>, last: Time) returns (lo: nat, hi: nat)
    requires r.Positive() && ClockOrder(trace, last)
    requires After(r, trace).blockedUntil != 0
    ensures Burst(r, trace, lo, hi) && After(r, trace).blockedUntil == trace[hi].at + r.block
  {
    var n := |trace| - 1;
    var before := trace[..n];
    WindowIsSuffix(r, trace, last);
    var s := After(r, trace);
    if s.count >= r.limit {
      lo, hi := n + 1 - s.count, n;
    } else {
      lo, hi := BlockIsSetByBurst(r, before, last);
      assert forall i :: 0 <= i < n ==> before[i] == trace[i];
    }
  }

  /** A connector is blocked only for a burst: at least `limit` records since the last reset, inside
      one window, the last of them less than `block` ago. */
  lemma BlockedMeansBurst(r: Rule, trace: seq<Event>, now: Time)
    requires r.Positive() && ClockOrder(trace, now)
    requires IsBlocked(After(r, trace), now)
    ensures exists lo: nat, hi: nat :: Burst(r, trace, lo, hi) && trace[hi].at <= now < trace[hi].at + r.block
  {
    var lo, hi := BlockIsSetByBurst(r, trace, now);
  }

  /** Where a new record lands in a trace, and whether it sets a block. */
  ghost predicate SetsBlock(r: Rule, trace: seq<Event>, k: nat)
    requires k < |trace| && trace[k].Record?
  {
    After(r, trace[..k + 1]).blockedUntil == trace[k].at + r.block
  }

  /** As long as no record rolls the window, the count grows by one with each. */
  lemma {:induction false} CountGrows(r: Rule, trace: seq<Event>, from: nat, to: nat)
    requires from <= to <= |trace| && OnlyRecords(trace, from, to)
    requires var s := After(r, trace[..from]);
      s.windowStart != 0 && forall i :: from <= i < to ==> trace[i].at - s.windowStart <= r.window
    ensures After(r, trace[..to]).count == After(r, trace[..from]).count + (to - from)
    ensures After(r, trace[..to]).windowStart == After(r, trace[..from]).windowStart
  {
    if from < to {
      CountGrows(r, trace, from, to - 1);
      assert trace[..to][..to - 1] == trace[..to - 1];
    }
  }

  /** A window that opens inside the span, or is open throughout it, counts all its later records. */
  lemma CountedRecordsBlock(r: Rule, trace: seq<Event>, from: nat, to: nat)
    requires r.Positive() && from < to <= |trace| && OnlyRecords(trace, from, to)
    requires forall i :: from <= i < to ==> 0 < trace[i].at && trace[i].at - trace[from].at <= r.window
    requires Rolls(r, After(r, trace[..from]), trace[from].at) && to - from >= r.limit
    ensures SetsBlock(r, trace, to - 1)
  {
    assert trace[..from + 1][..from] == trace[..from];
    CountGrows(r, trace, from + 1, to);
    assert trace[..to][..to - 1] == trace[..to - 1];
    assert After(r, trace[..to]).count >= r.limit;
  }

  /** How many records in one window-long span force a block. */
  function Enough(r: Rule): nat {
    if r.limit <= 1 then 1 else 2 * r.limit - 2
  }

  /** Any `Enough` records inside one window-long span with no reset between them set a block. */
  lemma BurstBlocks(r: Rule, trace: seq<Event>, last: Time, from: nat, to: nat)
    requires r.Positive() && ClockOrder(trace, last)
    requires from < to <= |trace| && OnlyRecords(trace, from, to)
    requires trace[to - 1].at - trace[from].at <= r.window
    requires to - from >= Enough(r)
    ensures exists k :: from <= k < to && SetsBlock(r, trace, k)
  {
    var s := After(r, trace[..from]);
    assert ClockOrder(trace[..from], last);
    WindowIsSuffix(r, trace[..from], last);
    var m := FirstRoll(r, trace, s, from, to);
    if from < m && s.count + (m - from) >= r.limit {
      OldWindowBlocks(r, trace, from, m);
      return;
    }
    if from < m {
      CountGrows(r, trace, from, m);
    }
    assert forall i :: m <= i < to ==> trace[m].at <= trace[i].at <= trace[to - 1].at;
    CountedRecordsBlock(r, trace, m, to);
  }

  /** Records after one that set a block only push the block further out. */
  lemma {:induction false} StaysBlocked(r: Rule, trace: seq<Event>, last: Time, k: nat)
    requires ClockOrder(trace, last) && k < |trace| && OnlyRecords(trace, k, |trace|) && SetsBlock(r, trace, k)
    ensures After(r, trace).blockedUntil >= trace[k].at + r.block
  {
    var n := |trace| - 1;
    if k == n {
      assert trace[..k + 1] == trace;
    } else {
      assert trace[..n][..k + 1] == trace[..k + 1];
      StaysBlocked(r, trace[..n], last, k);
    }
  }

  /** The trace ends in `Enough` records inside one window-long span that began less than `block` ago. */
  ghost predicate RecentBurst(r: Rule, trace: seq<Event>, from: nat, now: Time) {
    && ClockOrder(trace, now) && from < |trace| && OnlyRecords(trace, from, |trace|)
    && |trace| - from >= Enough(r) && trace[|trace| - 1].at - trace[from].at <= r.window
    && now < trace[from].at + r.block
  }

  /** After a burst the breaker stays closed to everybody for at least `block` from its first record. */
  lemma BurstHolds(r: Rule, trace: seq<Event>, from: nat, now: Time)
    requires r.Positive() && RecentBurst(r, trace, from, now)
    ensures IsBlocked(After(r, trace), now)
  {
    BurstBlocks(r, trace, now, from, |trace|);
    var k :| from <= k < |trace| && SetsBlock(r, trace, k);
    StaysBlocked(r, trace, now, k);
  }

  /** An old window that stays open can reach the limit. */
  lemma OldWindowBlocks(r: Rule, trace: seq<Event>, from: nat, to: nat)
    requires r.Positive() && from < to <= |trace| && OnlyRecords(trace, from, to)
    requires var s := After(r, trace[..from]);
      && s.windowStart != 0 && s.count + (to - from) >= r.limit
      && forall i :: from <= i < to ==> trace[i].at - s.windowStart <= r.window
    ensures SetsBlock(r, trace, to - 1)
  {
    CountGrows(r, trace, from, to);
    CountGrows(r, trace, from, to - 1);
    assert trace[..to][..to - 1] == trace[..to - 1];
  }

  lemma FirstRoll(r: Rule, trace: seq<Event>, s: State, from: nat, to: nat) returns (m: nat)
    requires from <= to <= |trace| && OnlyRecords(trace, from, to)
    ensures from <= m <= to
    ensures forall i :: from <= i < m ==> !Rolls(r, s, trace[i].at)
    ensures m < to ==> Rolls(r, s, trace[m].at)
  {
    m := from;
    while m < to && !Rolls(r, s, trace[m].at)
      invariant from <= m <= to
      invariant forall i :: from <= i < m ==> !Rolls(r, s, trace[i].at)
    {
      m := m + 1;
    }
  }

  function Repeat(e: Event, n: nat): seq<Event> {
    seq(n, _ => e)
  }

  /** One record opens a window, `limit - 2` more come at its very end and `limit - 1` right after it. */
  function Straddle(r: Rule): seq<Event>
    requires r.limit >= 2
  {
    [Record(1)] + Repeat(Record(1 + r.window), r.limit - 2) + Repeat(Record(2 + r.window), r.limit - 1)
  }

  lemma {:induction false} StraddleState(r: Rule, k: nat)
    requires r.Positive() && r.limit >= 2 && 1 <= k <= |Straddle(r)|
    ensures After(r, Straddle(r)[..k]) ==
      if k < r.limit then State(1, k, 0) else State(2 + r.window, k - (r.limit - 1), 0)
  {
    var trace := Straddle(r);
    assert trace[..k][..k - 1] == trace[..k - 1];
    if k == 1 {
      assert After(r, trace[..0]) == QUIET;
    } else {
      StraddleState(r, k - 1);
    }
  }

  /** `Enough` cannot be lowered: one record fewer in a span of one nanosecond may leave the breaker shut. */
  lemma EnoughIsLeast(r: Rule)
    requires r.Positive() && r.limit >= 2
    ensures var trace := Straddle(r);
      && |trace| - 1 == Enough(r) - 1
      && ClockOrder(trace, 2 + r.window)
      && OnlyRecords(trace, 1, |trace|)
      && trace[|trace| - 1].at - trace[1].at <= r.window
      && forall k :: 0 <= k <= |trace| ==> After(r, trace[..k]).blockedUntil == 0
  {
    var trace := Straddle(r);
    forall k | 0 <= k <= |trace| ensures After(r, trace[..k]).blockedUntil == 0 {
      if k > 0 {
        StraddleState(r, k);
      }
    }
  }
}
