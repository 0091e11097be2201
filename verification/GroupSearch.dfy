/** Group lookup by breadth-first search over the membership graph. */
module GroupSearch {
  import opened Directory
  import opened LdapEntry

  datatype Entry = Entry(dn: string, attributes: seq<Attribute>)

  datatype Groups = Groups(idAttribute: string, displayAttribute: string, maxDepth: int, maxGroups: int)

  /** The directory, asked which groups list a DN as a member. */
  type Graph = string -> seq<Entry>

  const SOURCE := "bfs_member_search"

  function FirstValue(e: Entry, name: string): string {
    var values := Values(e.attributes, name);
    if name == "" || values == [] then "" else values[0]
  }

  function Fact(cfg: Groups, e: Entry, depth: int): GroupFact {
    var id := FirstValue(e, cfg.idAttribute);
    var id := if id == "" then e.dn else id;
    var display := FirstValue(e, cfg.displayAttribute);
    GroupFact(id, e.dn, if display == "" then id else display, SOURCE, depth)
  }

  function Dns(facts: seq<GroupFact>): seq<string> {
    if facts == [] then [] else Dns(facts[..|facts| - 1]) + [facts[|facts| - 1].dn]
  }

  function DnSet(facts: seq<GroupFact>): set<string> {
    set i | 0 <= i < |facts| :: facts[i].dn
  }

  ghost predicate Distinct(entries: seq<Entry>) {
    forall i, j :: 0 <= i < j < |entries| ==> entries[i].dn != entries[j].dn
  }

  ghost predicate ListsOnce(g: Graph) {
    forall dn :: Distinct(g(dn))
  }

  // ----- the uncapped search, the reference for everything below

  /** The facts a list of entries adds to what has been seen. */
  function Added(cfg: Groups, entries: seq<Entry>, seen: set<string>, depth: int): seq<GroupFact> {
    if entries == [] then []
    else if entries[0].dn in seen then Added(cfg, entries[1..], seen, depth)
    else [Fact(cfg, entries[0], depth)] + Added(cfg, entries[1..], seen + {entries[0].dn}, depth)
  }

  /** The facts one level adds: every member of the frontier in order. */
  function Level(cfg: Groups, g: Graph, frontier: seq<string>, seen: set<string>, depth: int): seq<GroupFact> {
    if frontier == [] then []
    else
      var added := Added(cfg, g(frontier[0]), seen, depth);
      added + Level(cfg, g, frontier[1..], seen + DnSet(added), depth)
  }

  function From(cfg: Groups, g: Graph, frontier: seq<string>, seen: set<string>, depth: int): seq<GroupFact>
    decreases cfg.maxDepth - depth
  {
    if depth > cfg.maxDepth || frontier == [] then []
    else
      var level := Level(cfg, g, frontier, seen, depth);
      level + From(cfg, g, Dns(level), seen + DnSet(level), depth + 1)
  }

  function Uncapped(cfg: Groups, g: Graph, user: string): seq<GroupFact> {
    From(cfg, g, [user], {}, 1)
  }

  // ----- the search as the client runs it

  /** One group search: at most `max_groups` entries are kept. */
  function Truncated(cfg: Groups, entries: seq<Entry>): seq<Entry> {
    if |entries| > cfg.maxGroups && cfg.maxGroups >= 0 then entries[..cfg.maxGroups] else entries
  }

  lemma DnSetAppend(a: seq<GroupFact>, b: seq<GroupFact>)
    ensures DnSet(a + b) == DnSet(a) + DnSet(b)
  {
    forall dn | dn in DnSet(a) + DnSet(b) ensures dn in DnSet(a + b) {
      if dn in DnSet(a) {
        var i :| 0 <= i < |a| && a[i].dn == dn;
        assert (a + b)[i].dn == dn;
      } else {
        var i :| 0 <= i < |b| && b[i].dn == dn;
        assert (a + b)[|a| + i].dn == dn;
      }
    }
  }

  lemma {:induction false} DnsAppend(a: seq<GroupFact>, b: seq<GroupFact>)
    ensures Dns(a + b) == Dns(a) + Dns(b)
    decreases |b|
  {
    var n := |b| - 1;
    if b == [] {
      assert a + b == a;
    } else {
      assert (a + b)[..|a| + n] == a + b[..n];
      DnsAppend(a, b[..n]);
    }
  }

  lemma {:induction false} DnSetSize(facts: seq<GroupFact>)
    ensures |DnSet(facts)| <= |facts|
  {
    if facts != [] {
      var n := |facts| - 1;
      assert facts == facts[..n] + [facts[n]];
      DnSetAppend(facts[..n], [facts[n]]);
      assert DnSet([facts[n]]) == {facts[n].dn};
      DnSetSize(facts[..n]);
    }
  }

  lemma {:induction false} DistinctSize(entries: seq<Entry>, dns: set<string>)
    requires Distinct(entries) && forall i :: 0 <= i < |entries| ==> entries[i].dn in dns
    ensures |entries| <= |dns|
  {
    if entries != [] {
      var n := |entries| - 1;
      DistinctSize(entries[..n], dns - {entries[n].dn});
    }
  }

  /** A truncated search whose entries have all been seen would mean the cap is already reached. */
  lemma TruncationHidesNothing(cfg: Groups, full: seq<Entry>, facts: seq<GroupFact>)
    requires Distinct(full) && |facts| < cfg.maxGroups
    requires forall i :: 0 <= i < |Truncated(cfg, full)| ==> Truncated(cfg, full)[i].dn in DnSet(facts)
    ensures Truncated(cfg, full) == full
  {
    DistinctSize(Truncated(cfg, full), DnSet(facts));
    DnSetSize(facts);
  }

  /** The cap as a length. */
  function Cap(cfg: Groups): nat {
    if cfg.maxGroups > 0 then cfg.maxGroups else 0
  }

  lemma {:induction false} AddedAppend(cfg: Groups, a: seq<Entry>, b: seq<Entry>, seen: set<string>, depth: int)
    ensures Added(cfg, a + b, seen, depth) ==
      Added(cfg, a, seen, depth) + Added(cfg, b, seen + DnSet(Added(cfg, a, seen, depth)), depth)
  {
    if a == [] {
      assert a + b == b && seen + DnSet([]) == seen;
    } else {
      assert (a + b)[1..] == a[1..] + b;
      if a[0].dn in seen {
        AddedAppend(cfg, a[1..], b, seen, depth);
      } else {
        var fact := Fact(cfg, a[0], depth);
        var more := seen + {a[0].dn};
        var tail := Added(cfg, a[1..], more, depth);
        AddedAppend(cfg, a[1..], b, more, depth);
        DnSetAppend([fact], tail);
        assert [fact][0].dn == fact.dn && DnSet([fact]) == {fact.dn};
        assert seen + DnSet([fact] + tail) == more + DnSet(tail);
      }
    }
  }

  lemma DnSetOne(f: GroupFact)
    ensures DnSet([f]) == {f.dn}
  {
    assert [f][0].dn == f.dn;
  }

  lemma AddedNext(cfg: Groups, entries: seq<Entry>, j: nat, seen: set<string>, depth: int)
    requires j < |entries|
    ensures var added := Added(cfg, entries[..j], seen, depth);
      Added(cfg, entries[..j + 1], seen, depth) ==
        added + (if entries[j].dn in seen + DnSet(added) then [] else [Fact(cfg, entries[j], depth)])
  {
    assert entries[..j + 1] == entries[..j] + [entries[j]];
    AddedAppend(cfg, entries[..j], [entries[j]], seen, depth);
  }

  lemma AddedPrefix(cfg: Groups, entries: seq<Entry>, j: nat, seen: set<string>, depth: int)
    requires j <= |entries|
    ensures Added(cfg, entries[..j], seen, depth) <= Added(cfg, entries, seen, depth)
  {
    assert entries == entries[..j] + entries[j..];
    AddedAppend(cfg, entries[..j], entries[j..], seen, depth);
  }

  lemma OneMore(added: seq<GroupFact>, fact: GroupFact)
    ensures Dns(added + [fact]) == Dns(added) + [fact.dn]
    ensures DnSet(added + [fact]) == DnSet(added) + {fact.dn}
  {
    DnSetAppend(added, [fact]);
    DnSetOne(fact);
    DnsAppend(added, [fact]);
  }

  lemma EntryDone(facts0: seq<GroupFact>, seen0: set<string>, added: seq<GroupFact>, fact: GroupFact)
    ensures facts0 + added + [fact] == facts0 + (added + [fact])
    ensures seen0 + DnSet(added) + {fact.dn} == seen0 + DnSet(added + [fact])
    ensures Dns(added + [fact]) == Dns(added) + [fact.dn]
  {
    OneMore(added, fact);
  }

  /** The innermost loop: the entries of one search, until the cap.  `added` is what it appends. */
  method Absorb(cfg: Groups, entries: seq<Entry>, seen0: set<string>, facts0: seq<GroupFact>, next0: seq<string>, depth: int)
      returns (seen: set<string>, facts: seq<GroupFact>, next: seq<string>, ghost added: seq<GroupFact>)
    requires |facts0| < cfg.maxGroups
    ensures facts == facts0 + added && seen == seen0 + DnSet(added) && |facts| <= cfg.maxGroups
    ensures added <= Added(cfg, entries, seen0, depth)
    ensures |facts| < cfg.maxGroups ==> added == Added(cfg, entries, seen0, depth) && next == next0 + Dns(added)
    ensures |facts| < cfg.maxGroups ==> forall k :: 0 <= k < |entries| ==> entries[k].dn in seen
  {
    seen, facts, next, added := seen0, facts0, next0, [];
    var j := 0;
    while j < |entries|
      invariant j <= |entries| && |facts| < cfg.maxGroups
      invariant added == Added(cfg, entries[..j], seen0, depth)
      invariant facts == facts0 + added && seen == seen0 + DnSet(added) && next == next0 + Dns(added)
      invariant forall k :: 0 <= k < j ==> entries[k].dn in seen
    {
      AddedNext(cfg, entries, j, seen0, depth);
      if entries[j].dn in seen {
        j := j + 1;
        continue;
      }
      var fact := Fact(cfg, entries[j], depth);
      EntryDone(facts0, seen0, added, fact);
      AddedPrefix(cfg, entries, j + 1, seen0, depth);
      seen := seen + {entries[j].dn};
      facts := facts + [fact];
      added := added + [fact];
      if |facts| >= cfg.maxGroups {
        break;
      }
      next := next + [entries[j].dn];
      j := j + 1;
    }
    assert entries[..|entries|] == entries;
  }

  /** One search and its entries.  The truncation of the search never hides a group below the cap. */
  method Visit(cfg: Groups, full: seq<Entry>, seen0: set<string>, facts0: seq<GroupFact>, next0: seq<string>, depth: int)
      returns (seen: set<string>, facts: seq<GroupFact>, next: seq<string>, ghost added: seq<GroupFact>)
    requires Distinct(full) && |facts0| < cfg.maxGroups && seen0 == DnSet(facts0)
    ensures facts == facts0 + added && |facts| <= cfg.maxGroups
    ensures seen == DnSet(facts)
    ensures added <= Added(cfg, full, seen0, depth)
    ensures |facts| < cfg.maxGroups ==> added == Added(cfg, full, seen0, depth) && next == next0 + Dns(added)
  {
    TruncatedAdds(cfg, full, seen0, depth);
    seen, facts, next, added := Absorb(cfg, Truncated(cfg, full), seen0, facts0, next0, depth);
    DnSetAppend(facts0, added);
    if |facts| < cfg.maxGroups {
      TruncationHidesNothing(cfg, full, facts);
    }
  }

  lemma Extend(facts0: seq<GroupFact>, seen0: set<string>, added: seq<GroupFact>, got: seq<GroupFact>,
               mine: seq<GroupFact>, level: seq<GroupFact>)
    requires got <= mine && added + mine <= level
    ensures (facts0 + added) + got == facts0 + (added + got)
    ensures seen0 + DnSet(added) + DnSet(got) == seen0 + DnSet(added + got)
    ensures Dns(added) + Dns(got) == Dns(added + got)
    ensures added + got <= level
  {
    DnSetAppend(added, got);
    DnsAppend(added, got);
    assert added + got <= added + mine;
  }

  lemma MemberDone(cfg: Groups, g: Graph, frontier: seq<string>, i: nat, seen0: set<string>, facts0: seq<GroupFact>, depth: int,
                   added: seq<GroupFact>, more: seq<GroupFact>, mine: seq<GroupFact>)
    requires i < |frontier| && added == Level(cfg, g, frontier[..i], seen0, depth)
    requires seen0 == DnSet(facts0) && mine == Added(cfg, g(frontier[i]), DnSet(facts0 + added), depth) && more <= mine
    ensures facts0 + added + more == facts0 + (added + more)
    ensures Dns(added) + Dns(more) == Dns(added + more)
    ensures added + more <= Level(cfg, g, frontier[..i + 1], seen0, depth)
    ensures more == mine ==> added + more == Level(cfg, g, frontier[..i + 1], seen0, depth)
  {
    DnSetAppend(facts0, added);
    LevelNext(cfg, g, frontier, i, seen0, depth);
    Extend(facts0, seen0, added, more, mine, Level(cfg, g, frontier[..i + 1], seen0, depth));
  }

  /** The search for the groups of the `i`-th member, after those of the members before it added `added0`. */
  method VisitMember(cfg: Groups, g: Graph, frontier: seq<string>, i: nat, seen0: set<string>, facts0: seq<GroupFact>,
                     next0: seq<string>, depth: int, ghost base: seq<GroupFact>, ghost added0: seq<GroupFact>)
      returns (seen: set<string>, facts: seq<GroupFact>, next: seq<string>, ghost added: seq<GroupFact>)
    requires ListsOnce(g) && i < |frontier| && |facts0| < cfg.maxGroups
    requires facts0 == base + added0 && seen0 == DnSet(facts0) && next0 == Dns(added0)
    requires added0 == Level(cfg, g, frontier[..i], DnSet(base), depth)
    ensures facts == base + added && seen == DnSet(facts) && |facts| <= cfg.maxGroups
    ensures added <= Level(cfg, g, frontier[..i + 1], DnSet(base), depth)
    ensures |facts| < cfg.maxGroups ==> added == Level(cfg, g, frontier[..i + 1], DnSet(base), depth) && next == Dns(added)
  {
    ghost var more, mine := [], Added(cfg, g(frontier[i]), seen0, depth);
    seen, facts, next, more := Visit(cfg, g(frontier[i]), seen0, facts0, next0, depth);
    MemberDone(cfg, g, frontier, i, DnSet(base), base, depth, added0, more, mine);
    added := added0 + more;
  }

  /** One level of the search: what the frontier adds, up to the cap or the first failing search. */
  method Expand(cfg: Groups, g: Graph, failAt: int, frontier: seq<string>, seen0: set<string>, facts0: seq<GroupFact>,
                searches0: nat, depth: int)
      returns (seen: set<string>, facts: seq<GroupFact>, next: seq<string>, searches: nat, failed: bool,
               ghost added: seq<GroupFact>, ghost done: nat)
    requires ListsOnce(g) && |facts0| < cfg.maxGroups && seen0 == DnSet(facts0)
    ensures facts == facts0 + added && seen == DnSet(facts) && |facts| <= cfg.maxGroups
    ensures done <= |frontier| && searches == searches0 + done && added <= Level(cfg, g, frontier[..done], seen0, depth)
    ensures failed <==> failAt == searches && done < |frontier| && |facts| < cfg.maxGroups
    ensures searches0 <= failAt ==> searches <= failAt
    ensures failed || |facts| < cfg.maxGroups ==>
      && (done < |frontier| <==> failed)
      && added == Level(cfg, g, frontier[..done], seen0, depth) && next == Dns(added)
  {
    seen, facts, next, searches, failed, added, done := seen0, facts0, [], searches0, false, [], 0;
    var i := 0;
    assert facts0 + [] == facts0;
    while i < |frontier|
      invariant i == done <= |frontier| && |facts| < cfg.maxGroups && !failed && searches == searches0 + done
      invariant searches0 <= failAt ==> searches <= failAt
      invariant facts == facts0 + added && seen == DnSet(facts) && next == Dns(added)
      invariant added == Level(cfg, g, frontier[..done], seen0, depth)
    {
      if failAt == searches {
        failed := true;
        return;
      }
      searches := searches + 1;
      seen, facts, next, added := VisitMember(cfg, g, frontier, i, seen, facts, next, depth, facts0, added);
      done := done + 1;
      if |facts| >= cfg.maxGroups {
        return;
      }
      i := i + 1;
    }
  }

  lemma {:induction false} LevelAppend(cfg: Groups, g: Graph, a: seq<string>, b: seq<string>, seen: set<string>, depth: int)
    ensures var first := Level(cfg, g, a, seen, depth);
      Level(cfg, g, a + b, seen, depth) == first + Level(cfg, g, b, seen + DnSet(first), depth)
  {
    if a == [] {
      assert a + b == b && seen + DnSet([]) == seen;
    } else {
      assert (a + b)[1..] == a[1..] + b;
      var added := Added(cfg, g(a[0]), seen, depth);
      var more := seen + DnSet(added);
      var rest := Level(cfg, g, a[1..], more, depth);
      LevelAppend(cfg, g, a[1..], b, more, depth);
      DnSetAppend(added, rest);
      assert seen + DnSet(added + rest) == more + DnSet(rest);
      RegroupThree(added, rest, Level(cfg, g, b, more + DnSet(rest), depth));
    }
  }

  lemma RegroupThree(a: seq<GroupFact>, b: seq<GroupFact>, c: seq<GroupFact>)
    ensures a + (b + c) == (a + b) + c
  {
  }

  lemma LevelPrefix(cfg: Groups, g: Graph, frontier: seq<string>, i: nat, seen: set<string>, depth: int)
    requires i <= |frontier|
    ensures Level(cfg, g, frontier[..i], seen, depth) <= Level(cfg, g, frontier, seen, depth)
  {
    assert frontier == frontier[..i] + frontier[i..];
    LevelAppend(cfg, g, frontier[..i], frontier[i..], seen, depth);
  }

  lemma LevelNext(cfg: Groups, g: Graph, frontier: seq<string>, i: nat, seen: set<string>, depth: int)
    requires i < |frontier|
    ensures var first := Level(cfg, g, frontier[..i], seen, depth);
      Level(cfg, g, frontier[..i + 1], seen, depth) == first + Added(cfg, g(frontier[i]), seen + DnSet(first), depth)
  {
    assert frontier[..i + 1] == frontier[..i] + [frontier[i]];
    LevelAppend(cfg, g, frontier[..i], [frontier[i]], seen, depth);
    assert [frontier[i]][1..] == [];
  }

  lemma LevelStep(cfg: Groups, g: Graph, frontier: seq<string>, seen: set<string>, depth: int)
    requires depth <= cfg.maxDepth && frontier != []
    ensures var level := Level(cfg, g, frontier, seen, depth);
      From(cfg, g, frontier, seen, depth) == level + From(cfg, g, Dns(level), seen + DnSet(level), depth + 1)
  {
  }

  /** What a lookup without failures returns. */
  function Capped(cfg: Groups, g: Graph, user: string): seq<GroupFact> {
    var all := Uncapped(cfg, g, user);
    if |all| <= Cap(cfg) then all else all[..Cap(cfg)]
  }

  lemma Regroup(base: seq<GroupFact>, got: seq<GroupFact>, mine: seq<GroupFact>, rest: seq<GroupFact>)
    requires got <= mine
    ensures base + got <= base + (mine + rest)
    ensures base + mine + rest == base + (mine + rest)
  {
  }

  // ----- the queue of members

  /** The groups that the searches of these members list. */
  function ListedBy(g: Graph, members: seq<string>): set<string> {
    if members == [] then {}
    else ListedBy(g, members[..|members| - 1]) + EntryDns(g(members[|members| - 1]))
  }

  function EntryDns(entries: seq<Entry>): set<string> {
    set i | 0 <= i < |entries| :: entries[i].dn
  }

  /** The members in the order in which they are searched: the user, then every group as it was found. */
  function Queue(user: string, facts: seq<GroupFact>): seq<string> {
    [user] + Dns(facts)
  }

  /** Exactly the groups that the `done` members list have been found, and the frontier is the rest of the queue. */
  ghost predicate Queued(g: Graph, user: string, facts: seq<GroupFact>, done: seq<string>, frontier: seq<string>) {
    Queue(user, facts) == done + frontier && DnSet(facts) == ListedBy(g, done)
  }

  lemma {:induction false} ListedByMember(g: Graph, members: seq<string>, dn: string)
    ensures dn in ListedBy(g, members) <==> exists k :: 0 <= k < |members| && Lists(g(members[k]), dn)
  {
    if members != [] {
      var n := |members| - 1;
      ListedByMember(g, members[..n], dn);
      assert dn in EntryDns(g(members[n])) <==> Lists(g(members[n]), dn);
      if k :| 0 <= k < |members[..n]| && Lists(g(members[..n][k]), dn) {
        assert Lists(g(members[k]), dn);
      }
      if k :| 0 <= k < n && Lists(g(members[k]), dn) {
        assert Lists(g(members[..n][k]), dn);
      }
    }
  }

  lemma {:induction false} ListedByBoth(g: Graph, a: seq<string>, b: seq<string>)
    ensures ListedBy(g, a + b) == ListedBy(g, a) + ListedBy(g, b)
  {
    if b == [] {
      assert a + b == a;
    } else {
      var n := |b| - 1;
      assert (a + b)[..|a + b| - 1] == a + b[..n];
      ListedByBoth(g, a, b[..n]);
    }
  }

  lemma LevelIsListed(cfg: Groups, g: Graph, frontier: seq<string>, seen: set<string>, depth: int)
    ensures seen + DnSet(Level(cfg, g, frontier, seen, depth)) == seen + ListedBy(g, frontier)
  {
    forall dn ensures dn in seen + DnSet(Level(cfg, g, frontier, seen, depth)) <==> dn in seen + ListedBy(g, frontier) {
      LevelDns(cfg, g, frontier, seen, depth, dn);
      ListedByMember(g, frontier, dn);
    }
  }

  lemma QueueAppend(user: string, facts: seq<GroupFact>, added: seq<GroupFact>)
    ensures Queue(user, facts + added) == Queue(user, facts) + Dns(added)
  {
    DnsAppend(facts, added);
  }

  lemma Halves(done: seq<string>, frontier: seq<string>, more: seq<string>, i: nat)
    requires i <= |frontier|
    ensures (done + frontier) + more == (done + frontier[..i]) + (frontier[i..] + more)
  {
    assert frontier == frontier[..i] + frontier[i..];
  }

  /** After the searches of the first `i` members of the frontier. */
  lemma QueueGrows(cfg: Groups, g: Graph, user: string, facts: seq<GroupFact>, done: seq<string>, frontier: seq<string>,
                   depth: int, i: nat, added: seq<GroupFact>)
    requires Queued(g, user, facts, done, frontier) && i <= |frontier|
    requires added == Level(cfg, g, frontier[..i], DnSet(facts), depth)
    ensures Queued(g, user, facts + added, done + frontier[..i], frontier[i..] + Dns(added))
  {
    QueueAppend(user, facts, added);
    Halves(done, frontier, Dns(added), i);
    ListedByBoth(g, done, frontier[..i]);
    DnSetAppend(facts, added);
    LevelIsListed(cfg, g, frontier[..i], DnSet(facts), depth);
  }

  /** A level that reached the cap has found nothing but what its searches list. */
  lemma CappedLevelIsListed(cfg: Groups, g: Graph, user: string, facts: seq<GroupFact>, done: seq<string>, frontier: seq<string>,
                            depth: int, i: nat, added: seq<GroupFact>)
    requires Queued(g, user, facts, done, frontier) && i <= |frontier|
    requires added <= Level(cfg, g, frontier[..i], DnSet(facts), depth)
    ensures Found(g, user, facts + added, done + frontier[..i])
  {
    QueueAppend(user, facts, added);
    Halves(done, frontier, Dns(added), i);
    ListedByBoth(g, done, frontier[..i]);
    PartIsListed(cfg, g, frontier[..i], DnSet(facts), depth, added);
    DnSetAppend(facts, added);
  }

  /** The members searched open the queue, and nothing has been found but what they list. */
  ghost predicate Found(g: Graph, user: string, facts: seq<GroupFact>, done: seq<string>) {
    done <= Queue(user, facts) && DnSet(facts) <= ListedBy(g, done)
  }

  lemma PartIsListed(cfg: Groups, g: Graph, members: seq<string>, seen: set<string>, depth: int, added: seq<GroupFact>)
    requires added <= Level(cfg, g, members, seen, depth)
    ensures DnSet(added) <= seen + ListedBy(g, members)
  {
    var full := Level(cfg, g, members, seen, depth);
    LevelIsListed(cfg, g, members, seen, depth);
    assert full == added + full[|added|..];
    DnSetAppend(added, full[|added|..]);
  }

  /** What is left of the queue was found on the last level. */
  ghost predicate LeftAtDepth(facts: seq<GroupFact>, done: seq<string>, depth: int) {
    forall j :: 0 <= j < |facts| && |done| <= j + 1 ==> facts[j].depth == depth - 1
  }

  lemma {:induction false} DnsLength(facts: seq<GroupFact>)
    ensures |Dns(facts)| == |facts|
  {
    if facts != [] {
      DnsLength(facts[..|facts| - 1]);
    }
  }

  lemma LeftAfter(cfg: Groups, g: Graph, user: string, facts: seq<GroupFact>, done: seq<string>, frontier: seq<string>,
                  depth: int, added: seq<GroupFact>)
    requires Queued(g, user, facts, done, frontier) && added == Level(cfg, g, frontier, DnSet(facts), depth)
    ensures LeftAtDepth(facts + added, done + frontier, depth + 1)
  {
    DnsLength(facts);
    assert |Queue(user, facts)| == |done + frontier|;
    LevelIsNew(cfg, g, frontier, DnSet(facts), depth);
  }

  // ----- the lookup

  /** What is found so far and what the remaining search would find make up the uncapped result. */
  ghost predicate Underway(cfg: Groups, g: Graph, user: string, facts: seq<GroupFact>, frontier: seq<string>,
                           seen: set<string>, depth: int) {
    facts + From(cfg, g, frontier, seen, depth) == Uncapped(cfg, g, user)
  }

  lemma PartOfLevel(cfg: Groups, g: Graph, user: string, facts: seq<GroupFact>, frontier: seq<string>,
                    seen: set<string>, depth: int, added: seq<GroupFact>, done: nat)
    requires depth <= cfg.maxDepth && frontier != [] && Underway(cfg, g, user, facts, frontier, seen, depth)
    requires done <= |frontier| && added <= Level(cfg, g, frontier[..done], seen, depth)
    ensures facts + added <= Uncapped(cfg, g, user)
  {
    var level := Level(cfg, g, frontier, seen, depth);
    LevelPrefix(cfg, g, frontier, done, seen, depth);
    LevelStep(cfg, g, frontier, seen, depth);
    Regroup(facts, added, level, From(cfg, g, Dns(level), seen + DnSet(level), depth + 1));
  }

  lemma WholeLevel(cfg: Groups, g: Graph, user: string, facts: seq<GroupFact>, frontier: seq<string>,
                   depth: int, added: seq<GroupFact>)
    requires depth <= cfg.maxDepth && frontier != [] && Underway(cfg, g, user, facts, frontier, DnSet(facts), depth)
    requires added == Level(cfg, g, frontier, DnSet(facts), depth)
    ensures Underway(cfg, g, user, facts + added, Dns(added), DnSet(facts + added), depth + 1)
  {
    LevelStep(cfg, g, frontier, DnSet(facts), depth);
    DnSetAppend(facts, added);
    Regroup(facts, added, added, From(cfg, g, Dns(added), DnSet(facts) + DnSet(added), depth + 1));
  }

  lemma AtStart(cfg: Groups, g: Graph, user: string)
    ensures Queued(g, user, [], [], [user]) && Underway(cfg, g, user, [], [user], {}, 1)
  {
    assert Queue(user, []) == [] + [user];
  }

  /** The searches made are all there are to make: nothing of the queue is left but groups at the last depth. */
  ghost predicate Exhausted(cfg: Groups, g: Graph, user: string, facts: seq<GroupFact>, done: seq<string>) {
    && done != [] && DnSet(facts) == ListedBy(g, done)
    && forall j :: 0 <= j < |facts| && |done| <= j + 1 ==> facts[j].depth >= cfg.maxDepth
  }

  /** `failAt` is the number of searches that succeed before one fails, negative if none does; `done` are the
      members whose searches succeeded.  A failure ends the lookup early with what has been found: the groups
      listed by the members searched before, no more and no less.  A lookup that does not fail has made all its
      searches, or as many as it took to reach the cap. */
  method Bfs(cfg: Groups, g: Graph, failAt: int, user: string)
      returns (facts: seq<GroupFact>, failed: bool, ghost done: seq<string>)
    requires ListsOnce(g)
    ensures facts <= Uncapped(cfg, g, user) && |facts| <= Cap(cfg) && Found(g, user, facts, done)
    ensures failed ==> failAt == |done| && |done| < |Queue(user, facts)| && DnSet(facts) == ListedBy(g, done)
    ensures !failed ==> facts == Capped(cfg, g, user) && (failAt >= 0 ==> |done| <= failAt)
    ensures !failed && |facts| < Cap(cfg) && cfg.maxDepth >= 1 ==> Exhausted(cfg, g, user, facts, done)
  {
    ghost var rest, seen, depth;
    facts, failed, done, rest, seen, depth := Levels(cfg, g, failAt, user);
    if failed {
      CutShort(g, user, facts, done, rest);
    } else {
      Finished(cfg, g, user, facts, rest, seen, depth);
      if |facts| < Cap(cfg) && cfg.maxDepth >= 1 {
        NothingLeft(cfg, g, user, facts, rest, done, depth);
      }
    }
  }

  /** The loop over the levels; `rest` is what it leaves of the queue. */
  method Levels(cfg: Groups, g: Graph, failAt: int, user: string)
      returns (facts: seq<GroupFact>, failed: bool, ghost done: seq<string>, ghost rest: seq<string>,
               ghost marked: set<string>, ghost level: int)
    requires ListsOnce(g)
    ensures facts <= Uncapped(cfg, g, user) && |facts| <= Cap(cfg) && Found(g, user, facts, done)
    ensures failAt >= 0 ==> |done| <= failAt
    ensures failed ==> failAt == |done| && rest != [] && Queued(g, user, facts, done, rest)
    ensures !failed ==> level > cfg.maxDepth || rest == [] || |facts| >= cfg.maxGroups
    ensures !failed && |facts| < cfg.maxGroups ==>
      && Underway(cfg, g, user, facts, rest, marked, level) && Queued(g, user, facts, done, rest)
      && LeftAtDepth(facts, done, level) && (level > 1 ==> done != [])
  {
    var seen: set<string> := {};
    var frontier := [user];
    var searches: nat := 0;
    facts, failed, done := [], false, [];
    var depth := 1;
    AtStart(cfg, g, user);
    rest, marked, level := frontier, seen, depth;
    while depth <= cfg.maxDepth && |frontier| > 0 && |facts| < cfg.maxGroups
      invariant rest == frontier && marked == seen == DnSet(facts) && level == depth && !failed && |done| == searches
      invariant |facts| <= Cap(cfg) && facts <= Uncapped(cfg, g, user) && Found(g, user, facts, done)
      invariant |facts| < cfg.maxGroups ==> Underway(cfg, g, user, facts, frontier, seen, depth)
      invariant |facts| < cfg.maxGroups ==> Queued(g, user, facts, done, frontier) && LeftAtDepth(facts, done, depth)
      invariant (failAt >= 0 ==> searches <= failAt) && (depth > 1 ==> done != [])
      decreases cfg.maxDepth - depth
    {
      seen, facts, frontier, searches, failed, done, rest :=
        SearchLevel(cfg, g, failAt, frontier, seen, facts, searches, depth, user, done);
      if failed {
        return;
      }
      depth := depth + 1;
      rest, marked, level := frontier, seen, depth;
    }
  }

  lemma CutShort(g: Graph, user: string, facts: seq<GroupFact>, done: seq<string>, rest: seq<string>)
    requires Queued(g, user, facts, done, rest) && rest != []
    ensures |done| < |Queue(user, facts)| && DnSet(facts) == ListedBy(g, done)
  {
    assert |Queue(user, facts)| == |done| + |rest|;
  }

  lemma NothingLeft(cfg: Groups, g: Graph, user: string, facts: seq<GroupFact>, frontier: seq<string>, done: seq<string>, depth: int)
    requires Queued(g, user, facts, done, frontier) && LeftAtDepth(facts, done, depth) && done != []
    requires depth > cfg.maxDepth || frontier == []
    ensures Exhausted(cfg, g, user, facts, done)
  {
    DnsLength(facts);
    assert |Queue(user, facts)| == |done| + |frontier|;
  }

  lemma Finished(cfg: Groups, g: Graph, user: string, facts: seq<GroupFact>, frontier: seq<string>, seen: set<string>, depth: int)
    requires |facts| <= Cap(cfg) && facts <= Uncapped(cfg, g, user)
    requires depth > cfg.maxDepth || frontier == [] || |facts| >= cfg.maxGroups
    requires |facts| < cfg.maxGroups ==> Underway(cfg, g, user, facts, frontier, seen, depth)
    ensures facts == Capped(cfg, g, user)
  {
  }

  /** One level, seen from the whole lookup. */
  method SearchLevel(cfg: Groups, g: Graph, failAt: int, frontier: seq<string>, seen0: set<string>,
                     facts0: seq<GroupFact>, searches0: nat, depth: int, ghost user: string, ghost done0: seq<string>)
      returns (seen: set<string>, facts: seq<GroupFact>, next: seq<string>, searches: nat, failed: bool,
               ghost done: seq<string>, ghost rest: seq<string>)
    requires ListsOnce(g) && |facts0| < cfg.maxGroups && seen0 == DnSet(facts0) && depth <= cfg.maxDepth && frontier != []
    requires Underway(cfg, g, user, facts0, frontier, seen0, depth) && Queued(g, user, facts0, done0, frontier)
    requires |done0| == searches0 && (failAt >= 0 ==> searches0 <= failAt)
    ensures seen == DnSet(facts) && |facts| <= cfg.maxGroups && facts <= Uncapped(cfg, g, user)
    ensures |done| == searches && (failAt >= 0 ==> searches <= failAt)
    ensures Found(g, user, facts, done)
    ensures failed ==> failAt == searches && rest != []
    ensures failed || |facts| < cfg.maxGroups ==> Queued(g, user, facts, done, rest)
    ensures !failed ==> done != []
    ensures !failed && |facts| < cfg.maxGroups ==>
      Underway(cfg, g, user, facts, next, seen, depth + 1) && rest == next && LeftAtDepth(facts, done, depth + 1)
  {
    ghost var added, i;
    seen, facts, next, searches, failed, added, i := Expand(cfg, g, failAt, frontier, seen0, facts0, searches0, depth);
    done, rest := done0 + frontier[..i], frontier[i..] + Dns(added);
    PartOfLevel(cfg, g, user, facts0, frontier, seen0, depth, added, i);
    CappedLevelIsListed(cfg, g, user, facts0, done0, frontier, depth, i, added);
    if failed {
      QueueGrows(cfg, g, user, facts0, done0, frontier, depth, i, added);
    } else if |facts| < cfg.maxGroups {
      assert frontier[..i] == frontier && frontier[i..] + Dns(added) == Dns(added);
      LevelPassed(cfg, g, user, facts0, done0, frontier, depth, added);
    }
  }

  lemma LevelPassed(cfg: Groups, g: Graph, user: string, facts: seq<GroupFact>, done: seq<string>, frontier: seq<string>,
                    depth: int, added: seq<GroupFact>)
    requires depth <= cfg.maxDepth && frontier != [] && Underway(cfg, g, user, facts, frontier, DnSet(facts), depth)
    requires Queued(g, user, facts, done, frontier) && added == Level(cfg, g, frontier, DnSet(facts), depth)
    ensures Underway(cfg, g, user, facts + added, Dns(added), DnSet(facts + added), depth + 1)
    ensures Queued(g, user, facts + added, done + frontier, Dns(added)) && LeftAtDepth(facts + added, done + frontier, depth + 1)
  {
    WholeLevel(cfg, g, user, facts, frontier, depth, added);
    assert frontier[..|frontier|] == frontier && frontier[|frontier|..] + Dns(added) == Dns(added);
    QueueGrows(cfg, g, user, facts, done, frontier, depth, |frontier|, added);
    LeftAfter(cfg, g, user, facts, done, frontier, depth, added);
  }

  lemma TruncatedAdds(cfg: Groups, full: seq<Entry>, seen: set<string>, depth: int)
    ensures Added(cfg, Truncated(cfg, full), seen, depth) <= Added(cfg, full, seen, depth)
  {
    if Truncated(cfg, full) != full {
      assert full == full[..cfg.maxGroups] + full[cfg.maxGroups..];
      AddedAppend(cfg, full[..cfg.maxGroups], full[cfg.maxGroups..], seen, depth);
    }
  }

  // ----- distance in the membership graph

  ghost predicate Lists(entries: seq<Entry>, dn: string) {
    exists i :: 0 <= i < |entries| && entries[i].dn == dn
  }

  /** `dn` is reached from the user by exactly `k` memberships. */
  ghost predicate Reach(g: Graph, user: string, dn: string, k: nat)
    decreases k
  {
    if k == 0 then dn == user else exists via :: Reach(g, user, via, k - 1) && Lists(g(via), dn)
  }

  /** `dn` is reached by at least one and fewer than `k` memberships. */
  ghost predicate Before(g: Graph, user: string, dn: string, k: nat) {
    exists j: nat :: 1 <= j < k && Reach(g, user, dn, j)
  }

  /** `dn` is reached by some number of memberships between `lo` and `hi`. */
  ghost predicate Within(g: Graph, user: string, dn: string, lo: nat, hi: int) {
    exists k: nat :: lo <= k <= hi && Reach(g, user, dn, k)
  }

  /** `dn` is reached by `k` memberships and by no smaller positive number of them. */
  ghost predicate First(g: Graph, user: string, dn: string, k: nat) {
    Reach(g, user, dn, k) && !Before(g, user, dn, k)
  }

  ghost predicate Shortest(g: Graph, user: string, dn: string, k: nat) {
    k >= 1 && First(g, user, dn, k)
  }

  lemma {:induction false} AddedDns(cfg: Groups, entries: seq<Entry>, seen: set<string>, depth: int, dn: string)
    ensures dn in DnSet(Added(cfg, entries, seen, depth)) <==> dn !in seen && Lists(entries, dn)
  {
    if entries != [] {
      var e := entries[0];
      assert Lists(entries, dn) <==> e.dn == dn || Lists(entries[1..], dn) by {
        if Lists(entries[1..], dn) {
          var i :| 0 <= i < |entries[1..]| && entries[1..][i].dn == dn;
          assert entries[i + 1].dn == dn;
        }
        if Lists(entries, dn) && e.dn != dn {
          var i :| 0 <= i < |entries| && entries[i].dn == dn;
          assert entries[1..][i - 1].dn == dn;
        }
      }
      if e.dn in seen {
        AddedDns(cfg, entries[1..], seen, depth, dn);
      } else {
        AddedDns(cfg, entries[1..], seen + {e.dn}, depth, dn);
        DnSetAppend([Fact(cfg, e, depth)], Added(cfg, entries[1..], seen + {e.dn}, depth));
        DnSetOne(Fact(cfg, e, depth));
      }
    }
  }

  /** Distinct DNs, all new, all at the given depth. */
  ghost predicate NewAt(facts: seq<GroupFact>, seen: set<string>, depth: int) {
    && (forall i :: 0 <= i < |facts| ==> facts[i].dn !in seen && facts[i].depth == depth)
    && (forall i, j :: 0 <= i < j < |facts| ==> facts[i].dn != facts[j].dn)
  }

  lemma NewAtAppend(a: seq<GroupFact>, b: seq<GroupFact>, seen: set<string>, depth: int)
    requires NewAt(a, seen, depth) && NewAt(b, seen + DnSet(a), depth)
    ensures NewAt(a + b, seen, depth)
  {
    forall i, j | 0 <= i < |a| <= j < |a + b| ensures (a + b)[i].dn != (a + b)[j].dn {
      assert a[i].dn in DnSet(a);
      assert b[j - |a|].dn !in seen + DnSet(a);
    }
  }

  lemma {:induction false} AddedIsNew(cfg: Groups, entries: seq<Entry>, seen: set<string>, depth: int)
    ensures NewAt(Added(cfg, entries, seen, depth), seen, depth)
  {
    if entries != [] {
      var e := entries[0];
      if e.dn in seen {
        AddedIsNew(cfg, entries[1..], seen, depth);
      } else {
        AddedIsNew(cfg, entries[1..], seen + {e.dn}, depth);
        DnSetOne(Fact(cfg, e, depth));
        NewAtAppend([Fact(cfg, e, depth)], Added(cfg, entries[1..], seen + {e.dn}, depth), seen, depth);
      }
    }
  }

  lemma {:induction false} LevelIsNew(cfg: Groups, g: Graph, frontier: seq<string>, seen: set<string>, depth: int)
    ensures NewAt(Level(cfg, g, frontier, seen, depth), seen, depth)
  {
    if frontier != [] {
      var added := Added(cfg, g(frontier[0]), seen, depth);
      AddedIsNew(cfg, g(frontier[0]), seen, depth);
      LevelIsNew(cfg, g, frontier[1..], seen + DnSet(added), depth);
      NewAtAppend(added, Level(cfg, g, frontier[1..], seen + DnSet(added), depth), seen, depth);
    }
  }

  /** A level finds exactly the unseen groups of the frontier's members. */
  lemma {:induction false} LevelDns(cfg: Groups, g: Graph, frontier: seq<string>, seen: set<string>, depth: int, dn: string)
    ensures dn in DnSet(Level(cfg, g, frontier, seen, depth)) <==>
      dn !in seen && exists i :: 0 <= i < |frontier| && Lists(g(frontier[i]), dn)
  {
    if frontier != [] {
      var added := Added(cfg, g(frontier[0]), seen, depth);
      var rest := frontier[1..];
      AddedDns(cfg, g(frontier[0]), seen, depth, dn);
      LevelDns(cfg, g, rest, seen + DnSet(added), depth, dn);
      DnSetAppend(added, Level(cfg, g, rest, seen + DnSet(added), depth));
      if i :| 0 <= i < |rest| && Lists(g(rest[i]), dn) {
        assert Lists(g(frontier[i + 1]), dn);
      }
      if i :| 0 < i < |frontier| && Lists(g(frontier[i]), dn) {
        assert Lists(g(rest[i - 1]), dn);
      }
    }
  }

  lemma {:induction false} DnsMembers(facts: seq<GroupFact>, dn: string)
    ensures dn in Dns(facts) <==> dn in DnSet(facts)
  {
    if facts != [] {
      var n := |facts| - 1;
      assert facts == facts[..n] + [facts[n]];
      DnSetAppend(facts[..n], [facts[n]]);
      DnSetOne(facts[n]);
      DnsMembers(facts[..n], dn);
    }
  }

  /** The loop's state at the start of `depth`: everything nearer has been seen, and the frontier is the
      groups (at first the user) whose distance is `depth - 1`. */
  ghost predicate AtDepth(g: Graph, user: string, frontier: seq<string>, seen: set<string>, depth: nat)
    requires depth >= 1
  {
    && (forall dn :: dn in seen <==> Before(g, user, dn, depth))
    && (forall dn :: dn in frontier <==> First(g, user, dn, depth - 1))
  }

  lemma BeforeStep(g: Graph, user: string, via: string, dn: string, d: nat)
    requires Lists(g(via), dn)
    ensures Before(g, user, via, d) ==> Before(g, user, dn, d + 1)
  {
    if Before(g, user, via, d) {
      var j: nat :| 1 <= j < d && Reach(g, user, via, j);
      assert Reach(g, user, dn, j + 1);
    }
  }

  lemma LevelIsShortest(cfg: Groups, g: Graph, user: string, frontier: seq<string>, seen: set<string>, depth: nat, dn: string)
    requires depth >= 1 && AtDepth(g, user, frontier, seen, depth)
    ensures dn in DnSet(Level(cfg, g, frontier, seen, depth)) <==> Shortest(g, user, dn, depth)
  {
    LevelDns(cfg, g, frontier, seen, depth, dn);
    if dn in DnSet(Level(cfg, g, frontier, seen, depth)) {
      var i :| 0 <= i < |frontier| && Lists(g(frontier[i]), dn);
      assert frontier[i] in frontier;
    }
    if Shortest(g, user, dn, depth) {
      var via :| Reach(g, user, via, depth - 1) && Lists(g(via), dn);
      BeforeStep(g, user, via, dn, depth - 1);
      assert First(g, user, via, depth - 1) && via in frontier;
      var i :| 0 <= i < |frontier| && frontier[i] == via;
      assert Lists(g(frontier[i]), dn);
    }
  }

  lemma NextDepth(cfg: Groups, g: Graph, user: string, frontier: seq<string>, seen: set<string>, depth: nat)
    returns (next: seq<string>, marked: set<string>)
    requires depth >= 1 && AtDepth(g, user, frontier, seen, depth)
    ensures next == Dns(Level(cfg, g, frontier, seen, depth)) && marked == seen + DnSet(Level(cfg, g, frontier, seen, depth))
    ensures AtDepth(g, user, next, marked, depth + 1)
  {
    var level := Level(cfg, g, frontier, seen, depth);
    next, marked := Dns(level), seen + DnSet(level);
    forall dn ensures dn in seen + DnSet(level) <==> Before(g, user, dn, depth + 1) {
      LevelIsShortest(cfg, g, user, frontier, seen, depth, dn);
      if dn in seen {
        var j: nat :| 1 <= j < depth && Reach(g, user, dn, j);
      }
    }
    forall dn ensures dn in Dns(level) <==> First(g, user, dn, depth) {
      LevelIsShortest(cfg, g, user, frontier, seen, depth, dn);
      DnsMembers(level, dn);
    }
  }

  /** When nothing is first reached at distance `d`, nothing is first reached further out. */
  lemma {:induction false} DeadEnd(g: Graph, user: string, d: nat, k: nat, dn: string)
    requires 1 <= d <= k && Reach(g, user, dn, k)
    requires forall x :: Reach(g, user, x, d) ==> Before(g, user, x, d)
    ensures Before(g, user, dn, d)
    decreases k
  {
    if k > d {
      var via :| Reach(g, user, via, k - 1) && Lists(g(via), dn);
      DeadEnd(g, user, d, k - 1, via);
      var j: nat :| 1 <= j < d && Reach(g, user, via, j);
      assert Reach(g, user, dn, j + 1);
    }
  }

  /** Everything the remaining search returns, described by distance alone. */
  ghost predicate Exact(cfg: Groups, g: Graph, user: string, facts: seq<GroupFact>, seen: set<string>, depth: nat) {
    && (forall i :: 0 <= i < |facts| ==>
          depth <= facts[i].depth <= cfg.maxDepth && facts[i].dn !in seen && Shortest(g, user, facts[i].dn, facts[i].depth))
    && (forall i, j :: 0 <= i < j < |facts| ==> facts[i].dn != facts[j].dn && facts[i].depth <= facts[j].depth)
    && (forall dn :: Within(g, user, dn, depth, cfg.maxDepth) ==> dn in seen + DnSet(facts))
  }

  lemma FromEnds(cfg: Groups, g: Graph, user: string, frontier: seq<string>, seen: set<string>, depth: nat)
    requires depth >= 1 && AtDepth(g, user, frontier, seen, depth) && (depth > cfg.maxDepth || frontier == [])
    ensures Exact(cfg, g, user, From(cfg, g, frontier, seen, depth), seen, depth)
  {
    if depth > cfg.maxDepth {
      BelowTheFloor(cfg, g, user, seen, depth);
    } else {
      UserIsFirst(g, user, frontier, seen, depth);
      FrontierEmpty(cfg, g, user, seen, depth);
    }
  }

  lemma {:induction false} FromIsExact(cfg: Groups, g: Graph, user: string, frontier: seq<string>, seen: set<string>, depth: nat)
    requires depth >= 1 && AtDepth(g, user, frontier, seen, depth)
    ensures Exact(cfg, g, user, From(cfg, g, frontier, seen, depth), seen, depth)
    decreases cfg.maxDepth - depth
  {
    if depth > cfg.maxDepth || frontier == [] {
      FromEnds(cfg, g, user, frontier, seen, depth);
    } else {
      var next, marked := NextDepth(cfg, g, user, frontier, seen, depth);
      var deeper := From(cfg, g, next, marked, depth + 1);
      assert Exact(cfg, g, user, deeper, marked, depth + 1) by {
        FromIsExact(cfg, g, user, next, marked, depth + 1);
      }
      StepIsExact(cfg, g, user, frontier, seen, depth, next, marked, deeper);
    }
  }

  lemma StepIsExact(cfg: Groups, g: Graph, user: string, frontier: seq<string>, seen: set<string>, depth: nat,
                    next: seq<string>, marked: set<string>, deeper: seq<GroupFact>)
    requires 1 <= depth <= cfg.maxDepth && frontier != [] && AtDepth(g, user, frontier, seen, depth)
    requires next == Dns(Level(cfg, g, frontier, seen, depth)) && marked == seen + DnSet(Level(cfg, g, frontier, seen, depth))
    requires deeper == From(cfg, g, next, marked, depth + 1) && Exact(cfg, g, user, deeper, marked, depth + 1)
    ensures Exact(cfg, g, user, From(cfg, g, frontier, seen, depth), seen, depth)
  {
    LevelIsNew(cfg, g, frontier, seen, depth);
    LevelStep(cfg, g, frontier, seen, depth);
    ExactAppend(cfg, g, user, frontier, seen, depth, Level(cfg, g, frontier, seen, depth), deeper);
  }

  lemma FrontierEmpty(cfg: Groups, g: Graph, user: string, seen: set<string>, depth: nat)
    requires depth >= 2 && AtDepth(g, user, [], seen, depth)
    ensures Exact(cfg, g, user, [], seen, depth)
  {
    var d: nat := depth - 1;
    forall dn | Within(g, user, dn, depth, cfg.maxDepth) ensures dn in seen {
      var k: nat :| depth <= k <= cfg.maxDepth && Reach(g, user, dn, k);
      forall x | Reach(g, user, x, d) ensures Before(g, user, x, d) {
        assert x !in [] && !First(g, user, x, d);
      }
      DeadEnd(g, user, d, k, dn);
      var j: nat :| 1 <= j < d && Reach(g, user, dn, j);
      assert Before(g, user, dn, depth);
    }
  }

  lemma BelowTheFloor(cfg: Groups, g: Graph, user: string, seen: set<string>, depth: nat)
    requires depth > cfg.maxDepth
    ensures Exact(cfg, g, user, [], seen, depth)
  {
  }

  lemma UserIsFirst(g: Graph, user: string, frontier: seq<string>, seen: set<string>, depth: nat)
    requires depth >= 1 && AtDepth(g, user, frontier, seen, depth) && frontier == []
    ensures depth >= 2
  {
    assert First(g, user, user, 0);
    assert depth - 1 == 0 ==> user in frontier;
  }

  lemma ExactAppend(cfg: Groups, g: Graph, user: string, frontier: seq<string>, seen: set<string>, depth: nat,
                    level: seq<GroupFact>, deeper: seq<GroupFact>)
    requires 1 <= depth <= cfg.maxDepth && AtDepth(g, user, frontier, seen, depth)
    requires level == Level(cfg, g, frontier, seen, depth) && NewAt(level, seen, depth)
    requires Exact(cfg, g, user, deeper, seen + DnSet(level), depth + 1)
    ensures Exact(cfg, g, user, level + deeper, seen, depth)
  {
    DnSetAppend(level, deeper);
    forall i | 0 <= i < |level| ensures Shortest(g, user, level[i].dn, depth) {
      LevelIsShortest(cfg, g, user, frontier, seen, depth, level[i].dn);
    }
    forall dn | Within(g, user, dn, depth, cfg.maxDepth) ensures dn in seen + DnSet(level + deeper) {
      var k: nat :| depth <= k <= cfg.maxDepth && Reach(g, user, dn, k);
      assert k > depth ==> Within(g, user, dn, depth + 1, cfg.maxDepth);
      if k == depth && dn !in seen {
        LevelIsShortest(cfg, g, user, frontier, seen, depth, dn);
      }
    }
    forall i, j | 0 <= i < |level| <= j < |level + deeper| ensures (level + deeper)[i].dn != (level + deeper)[j].dn {
      assert level[i].dn in DnSet(level);
      assert deeper[j - |level|].dn !in seen + DnSet(level);
    }
  }

  /** The uncapped search returns each group reachable in 1 to `max_depth` memberships once, nearest first,
      with its shortest distance as depth. */
  lemma UncappedIsExact(cfg: Groups, g: Graph, user: string)
    ensures Exact(cfg, g, user, Uncapped(cfg, g, user), {}, 1)
  {
    assert forall dn :: dn in [user] <==> First(g, user, dn, 0);
    assert AtDepth(g, user, [user], {}, 1);
    FromIsExact(cfg, g, user, [user], {}, 1);
  }

  /** What a caller can rely on for whatever a lookup returned: a lookup cut short by a failure or the cap
      still has correct depths and distinct groups, and one that stayed below the cap is complete. */
  lemma LookupIsExact(cfg: Groups, g: Graph, user: string, facts: seq<GroupFact>)
    requires facts <= Uncapped(cfg, g, user)
    ensures forall i :: 0 <= i < |facts| ==>
      1 <= facts[i].depth <= cfg.maxDepth && Shortest(g, user, facts[i].dn, facts[i].depth)
    ensures forall i, j :: 0 <= i < j < |facts| ==> facts[i].dn != facts[j].dn
    ensures facts == Capped(cfg, g, user) && |facts| < Cap(cfg) ==>
      forall dn :: dn in DnSet(facts) <==> Within(g, user, dn, 1, cfg.maxDepth)
  {
    UncappedIsExact(cfg, g, user);
    if facts == Capped(cfg, g, user) && |facts| < Cap(cfg) {
      assert facts == Uncapped(cfg, g, user);
      forall dn | dn in DnSet(facts) ensures Within(g, user, dn, 1, cfg.maxDepth) {
        var i :| 0 <= i < |facts| && facts[i].dn == dn;
        assert Reach(g, user, dn, facts[i].depth);
      }
      forall dn | Within(g, user, dn, 1, cfg.maxDepth) ensures dn in DnSet(facts) {
        assert dn in {} + DnSet(Uncapped(cfg, g, user));
      }
    }
  }

  // ----- the cap

  lemma {:induction false} AddedIgnoresCap(a: Groups, b: Groups, entries: seq<Entry>, seen: set<string>, depth: int)
    requires a.(maxGroups := b.maxGroups) == b
    ensures Added(a, entries, seen, depth) == Added(b, entries, seen, depth)
  {
    if entries != [] {
      AddedIgnoresCap(a, b, entries[1..], seen, depth);
      AddedIgnoresCap(a, b, entries[1..], seen + {entries[0].dn}, depth);
    }
  }

  lemma {:induction false} LevelIgnoresCap(a: Groups, b: Groups, g: Graph, frontier: seq<string>, seen: set<string>, depth: int)
    requires a.(maxGroups := b.maxGroups) == b
    ensures Level(a, g, frontier, seen, depth) == Level(b, g, frontier, seen, depth)
  {
    if frontier != [] {
      AddedIgnoresCap(a, b, g(frontier[0]), seen, depth);
      LevelIgnoresCap(a, b, g, frontier[1..], seen + DnSet(Added(a, g(frontier[0]), seen, depth)), depth);
    }
  }

  lemma {:induction false} FromIgnoresCap(a: Groups, b: Groups, g: Graph, frontier: seq<string>, seen: set<string>, depth: int)
    requires a.(maxGroups := b.maxGroups) == b
    ensures From(a, g, frontier, seen, depth) == From(b, g, frontier, seen, depth)
    decreases a.maxDepth - depth
  {
    if depth <= a.maxDepth && frontier != [] {
      var level := Level(a, g, frontier, seen, depth);
      LevelIgnoresCap(a, b, g, frontier, seen, depth);
      FromIgnoresCap(a, b, g, Dns(level), seen + DnSet(level), depth + 1);
    }
  }

  /** Lowering the cap keeps a prefix of the result, although it also truncates every search. */
  lemma CapIsPrefix(small: Groups, large: Groups, g: Graph, user: string)
    requires small.(maxGroups := large.maxGroups) == large && small.maxGroups <= large.maxGroups
    ensures var more := Capped(large, g, user);
      Capped(small, g, user) == if |more| <= Cap(small) then more else more[..Cap(small)]
  {
    FromIgnoresCap(small, large, g, [user], {}, 1);
  }
}
