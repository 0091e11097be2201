/** What the facts of a group lookup say about the entries they come from. */
module GroupFacts {
  import opened Directory
  import opened GroupSearch
  import opened LdapEntry

  /** The first attribute of this name has values, and this is the first of them. */
  ghost predicate HasFirst(e: Entry, name: string, value: string) {
    && name != ""
    && exists i :: 0 <= i < |e.attributes| && e.attributes[i].name == name && e.attributes[i].values != []
                   && e.attributes[i].values[0] == value && forall k :: 0 <= k < i ==> e.attributes[k].name != name
  }

  /** The value read is the first one there is, and empty when there is none. */
  lemma FirstValueIs(e: Entry, name: string, value: string)
    ensures HasFirst(e, name, value) ==> FirstValue(e, name) == value
    ensures FirstValue(e, name) == "" || HasFirst(e, name, FirstValue(e, name))
  {
    if HasFirst(e, name, value) {
      var i :| 0 <= i < |e.attributes| && e.attributes[i].name == name && e.attributes[i].values != []
        && e.attributes[i].values[0] == value && forall k :: 0 <= k < i ==> e.attributes[k].name != name;
      ValuesOfFirst(e.attributes, name, i);
    }
    if FirstValue(e, name) != "" {
      var i := FirstOfValues(e.attributes, name);
      ValuesOfFirst(e.attributes, name, i);
    }
  }

  /** The fact is about the entry: its id is the first id value, or else the DN; its display name the first
      display value, or else the id. */
  ghost predicate Describes(cfg: Groups, e: Entry, f: GroupFact) {
    && f.dn == e.dn && f.source == "bfs_member_search"
    && (if exists v :: v != "" && HasFirst(e, cfg.idAttribute, v) then HasFirst(e, cfg.idAttribute, f.id) else f.id == e.dn)
    && (if exists v :: v != "" && HasFirst(e, cfg.displayAttribute, v) then HasFirst(e, cfg.displayAttribute, f.display)
        else f.display == f.id)
  }

  lemma FactDescribes(cfg: Groups, e: Entry, depth: int)
    ensures Describes(cfg, e, Fact(cfg, e, depth))
  {
    FirstIsRead(e, cfg.idAttribute);
    FirstIsRead(e, cfg.displayAttribute);
  }

  lemma FirstIsRead(e: Entry, name: string)
    ensures (exists v :: v != "" && HasFirst(e, name, v)) <==> FirstValue(e, name) != ""
    ensures FirstValue(e, name) != "" ==> HasFirst(e, name, FirstValue(e, name))
  {
    if v :| v != "" && HasFirst(e, name, v) {
      FirstValueIs(e, name, v);
    }
    FirstValueIs(e, name, "");
  }

  /** Some search of a member lists an entry that the fact is about. */
  ghost predicate Sourced(cfg: Groups, g: Graph, members: seq<string>, f: GroupFact) {
    exists k, j :: 0 <= k < |members| && 0 <= j < |g(members[k])| && Describes(cfg, g(members[k])[j], f)
  }

  lemma {:induction false} AddedAreDescribed(cfg: Groups, entries: seq<Entry>, seen: set<string>, depth: int, i: nat) returns (j: nat)
    requires i < |Added(cfg, entries, seen, depth)|
    ensures j < |entries| && Describes(cfg, entries[j], Added(cfg, entries, seen, depth)[i])
  {
    if entries[0].dn in seen {
      var k := AddedAreDescribed(cfg, entries[1..], seen, depth, i);
      j := k + 1;
    } else if i == 0 {
      FactDescribes(cfg, entries[0], depth);
      j := 0;
    } else {
      var k := AddedAreDescribed(cfg, entries[1..], seen + {entries[0].dn}, depth, i - 1);
      j := k + 1;
    }
  }

  lemma {:induction false} LevelIsSourced(cfg: Groups, g: Graph, frontier: seq<string>, seen: set<string>, depth: int, i: nat)
    requires i < |Level(cfg, g, frontier, seen, depth)|
    ensures Sourced(cfg, g, frontier, Level(cfg, g, frontier, seen, depth)[i])
  {
    var added := Added(cfg, g(frontier[0]), seen, depth);
    if i < |added| {
      var j := AddedAreDescribed(cfg, g(frontier[0]), seen, depth, i);
      assert Describes(cfg, g(frontier[0])[j], added[i]);
    } else {
      var rest := frontier[1..];
      LevelIsSourced(cfg, g, rest, seen + DnSet(added), depth, i - |added|);
      var f := Level(cfg, g, frontier, seen, depth)[i];
      var k, j :| 0 <= k < |rest| && 0 <= j < |g(rest[k])| && Describes(cfg, g(rest[k])[j], f);
      assert frontier[k + 1] == rest[k] && Describes(cfg, g(frontier[k + 1])[j], f);
    }
  }

  lemma SourcedAmongMore(cfg: Groups, g: Graph, a: seq<string>, b: seq<string>, f: GroupFact)
    requires Sourced(cfg, g, a, f) && forall x :: x in a ==> x in b
    ensures Sourced(cfg, g, b, f)
  {
    var k, j :| 0 <= k < |a| && 0 <= j < |g(a[k])| && Describes(cfg, g(a[k])[j], f);
    assert a[k] in b;
    var m :| 0 <= m < |b| && b[m] == a[k];
    assert Describes(cfg, g(b[m])[j], f);
  }

  lemma {:induction false} FromIsSourced(cfg: Groups, g: Graph, frontier: seq<string>, seen: set<string>, depth: int, i: nat)
    requires i < |From(cfg, g, frontier, seen, depth)|
    ensures Sourced(cfg, g, frontier + Dns(From(cfg, g, frontier, seen, depth)), From(cfg, g, frontier, seen, depth)[i])
    decreases cfg.maxDepth - depth
  {
    var level := Level(cfg, g, frontier, seen, depth);
    var rest := From(cfg, g, Dns(level), seen + DnSet(level), depth + 1);
    DnsAppend(level, rest);
    if i < |level| {
      LevelIsSourced(cfg, g, frontier, seen, depth, i);
      SourcedAmongMore(cfg, g, frontier, frontier + Dns(level + rest), level[i]);
    } else {
      FromIsSourced(cfg, g, Dns(level), seen + DnSet(level), depth + 1, i - |level|);
      SourcedAmongMore(cfg, g, Dns(level) + Dns(rest), frontier + Dns(level + rest), rest[i - |level|]);
    }
  }

  /** Every fact of a lookup, cut short or not, is about an entry that the search for the user or for a found
      group lists: id, display name, DN and source are that entry's. */
  lemma FactsComeFromEntries(cfg: Groups, g: Graph, user: string, facts: seq<GroupFact>, i: nat)
    requires facts <= Uncapped(cfg, g, user) && i < |facts|
    ensures Sourced(cfg, g, Queue(user, Uncapped(cfg, g, user)), facts[i])
  {
    FromIsSourced(cfg, g, [user], {}, 1, i);
  }
}
