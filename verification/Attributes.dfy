/** Which attributes a user search asks for, and which of them a response releases. */
module Attributes {
  import opened LdapEntry
  import opened Text

  type Entry = seq<Attribute>

  datatype Config = Config(allowed: seq<string>, profile: string, subject: string,
                           groupsEnabled: bool, response: string, member: string)
  {
    /** Groups are on and the caller asked for them. */
    predicate WantsGroups(requested: seq<string>) {
      groupsEnabled && response != "" && response in requested
    }
  }

  /** Base64 without padding, given from outside. */
  type Encoder = string -> string

  // ----- the requested list

  function FirstAt(list: seq<string>, name: string): (n: nat)
    ensures n <= |list|
    ensures forall i :: 0 <= i < n ==> list[i] != name
    ensures n < |list| ==> list[n] == name
    ensures name in list <==> n < |list|
  {
    if list == [] || list[0] == name then 0 else 1 + FirstAt(list[1..], name)
  }

  /** In order of first appearance in `list`; in particular without repetition. */
  ghost predicate InOrderOf(list: seq<string>, names: seq<string>) {
    forall i, j :: 0 <= i < j < |names| ==> FirstAt(list, names[i]) < FirstAt(list, names[j])
  }

  /** The duplicate-free intersection, in the order of the request. */
  ghost predicate IsIntersection(names: seq<string>, requested: seq<string>, allowed: seq<string>) {
    && InOrderOf(requested, names)
    && forall name :: name in names <==> name in requested && name in allowed
  }

  method RequestedAttributes(requested: seq<string>, allowed: seq<string>) returns (result: seq<string>)
    ensures IsIntersection(result, requested, allowed)
  {
    if |requested| == 0 {
      return [];
    }
    var allowedSet: set<string> := {};
    for i := 0 to |allowed|
      invariant allowedSet == set name | name in allowed[..i]
    {
      allowedSet := allowedSet + {allowed[i]};
    }
    assert allowed[..|allowed|] == allowed;
    result := [];
    var seen: set<string> := {};
    for i := 0 to |requested|
      invariant forall name :: name in result <==> name in requested[..i] && name in allowed
      invariant seen == set name | name in result
      invariant InOrderOf(requested, result)
    {
      var name := requested[i];
      assert requested[..i + 1] == requested[..i] + [name];
      if name !in allowedSet {
        continue;
      }
      if name in seen {
        continue;
      }
      NewNameComesLater(requested, result, i);
      seen := seen + {name};
      result := result + [name];
    }
    assert requested[..|requested|] == requested;
  }

  lemma NewNameComesLater(requested: seq<string>, names: seq<string>, i: nat)
    requires i < |requested| && InOrderOf(requested, names) && requested[i] !in names
    requires forall name :: name in names ==> name in requested[..i]
    ensures InOrderOf(requested, names + [requested[i]]) || requested[i] in requested[..i]
  {
    if requested[i] !in requested[..i] {
      forall k | 0 <= k < |names| ensures FirstAt(requested, names[k]) < i {
        assert names[k] in requested[..i];
      }
      assert FirstAt(requested, requested[i]) == i;
    }
  }

  /** There is only one such list. */
  lemma {:induction false} OrderedListIsUnique(list: seq<string>, a: seq<string>, b: seq<string>)
    requires InOrderOf(list, a) && InOrderOf(list, b) && forall name :: name in a <==> name in b
    ensures a == b
  {
    HasMember(a);
    HasMember(b);
    if a != [] {
      assert a[0] in b;
      assert b[0] in a;
      assert a[0] == b[0];
      TailMembers(list, a);
      TailMembers(list, b);
      OrderedListIsUnique(list, a[1..], b[1..]);
      assert a == [a[0]] + a[1..] && b == [b[0]] + b[1..];
    }
  }

  lemma HasMember(a: seq<string>)
    ensures a == [] || exists name :: name in a
  {
    if a != [] {
      assert a[0] in a;
    }
  }

  lemma TailMembers(list: seq<string>, a: seq<string>)
    requires InOrderOf(list, a) && a != []
    ensures InOrderOf(list, a[1..]) && forall name :: name in a[1..] <==> name in a && name != a[0]
  {
    assert a == [a[0]] + a[1..];
    forall i | 0 < i < |a| ensures a[i] != a[0] {
      assert FirstAt(list, a[0]) < FirstAt(list, a[i]);
    }
  }

  // ----- the search list

  /** What the search asks for, in terms of membership. */
  ghost predicate AskedFor(cfg: Config, requested: seq<string>, name: string) {
    || (name in requested && name in cfg.allowed)
    || (name == cfg.subject && name != "")
    || (name == cfg.member && name != "" && cfg.WantsGroups(requested))
  }

  method SearchAttributes(cfg: Config, requested: seq<string>) returns (attrs: seq<string>)
    ensures forall name :: name in attrs <==> AskedFor(cfg, requested, name)
    ensures forall i, j :: 0 <= i < j < |attrs| ==> attrs[i] != attrs[j]
  {
    attrs := RequestedAttributes(requested, cfg.allowed);
    InOrderIsDistinct(requested, attrs);
    if cfg.subject != "" && cfg.subject !in attrs {
      attrs := attrs + [cfg.subject];
    }
    if !cfg.groupsEnabled || cfg.response == "" || cfg.response !in requested {
      return;
    }
    if cfg.member == "" {
      return;
    }
    if cfg.member in attrs {
      return;
    }
    attrs := attrs + [cfg.member];
  }

  lemma InOrderIsDistinct(list: seq<string>, names: seq<string>)
    requires InOrderOf(list, names)
    ensures forall i, j :: 0 <= i < j < |names| ==> names[i] != names[j]
  {
    forall i, j | 0 <= i < j < |names| ensures names[i] != names[j] {
      assert FirstAt(list, names[i]) < FirstAt(list, names[j]);
    }
  }

  // ----- reading an entry

  function SubjectValue(cfg: Config, encode: Encoder, entry: Entry): string {
    if cfg.subject == "" || entry == [] then ""
    else
      var attr := entry[0];
      if Lower(attr.name) != Lower(cfg.subject) then SubjectValue(cfg, encode, entry[1..])
      else if cfg.profile == "active_directory" && Lower(cfg.subject) == "objectguid" && attr.bytes != [] then encode(attr.bytes[0])
      else if attr.values != [] then attr.values[0]
      else if attr.bytes != [] then encode(attr.bytes[0])
      else SubjectValue(cfg, encode, entry[1..])
  }

  /** An attribute that can give the subject: its name matches in any case, and it has a value of some form. */
  predicate GivesSubject(cfg: Config, attr: Attribute) {
    Lower(attr.name) == Lower(cfg.subject) && (attr.values != [] || attr.bytes != [])
  }

  /** The raw bytes for a binary object id and where there is nothing else, the text otherwise. */
  function SubjectFrom(cfg: Config, encode: Encoder, attr: Attribute): string
    requires GivesSubject(cfg, attr)
  {
    if attr.bytes != [] && (attr.values == [] || (cfg.profile == "active_directory" && Lower(cfg.subject) == "objectguid"))
    then encode(attr.bytes[0]) else attr.values[0]
  }

  /** The subject is read from the first attribute that can give it. */
  lemma {:induction false} SubjectIsFirstGiven(cfg: Config, encode: Encoder, entry: Entry, i: nat)
    requires cfg.subject != "" && i < |entry| && GivesSubject(cfg, entry[i])
    requires forall k :: 0 <= k < i ==> !GivesSubject(cfg, entry[k])
    ensures SubjectValue(cfg, encode, entry) == SubjectFrom(cfg, encode, entry[i])
  {
    if i > 0 {
      assert !GivesSubject(cfg, entry[0]);
      SubjectIsFirstGiven(cfg, encode, entry[1..], i - 1);
    }
  }

  /** Without such an attribute there is no subject. */
  lemma {:induction false} NobodyGivesSubject(cfg: Config, encode: Encoder, entry: Entry)
    requires cfg.subject == "" || forall k :: 0 <= k < |entry| ==> !GivesSubject(cfg, entry[k])
    ensures SubjectValue(cfg, encode, entry) == ""
  {
    if cfg.subject != "" && entry != [] {
      assert !GivesSubject(cfg, entry[0]);
      NobodyGivesSubject(cfg, encode, entry[1..]);
    }
  }

  /** The values released under a name, none when the name is not released. */
  function Released(cfg: Config, entry: Entry, requested: seq<string>, name: string): seq<string> {
    if cfg.WantsGroups(requested) && name == cfg.response && Values(entry, cfg.member) != [] then Values(entry, cfg.member)
    else if name in requested && name in cfg.allowed then Values(entry, name)
    else []
  }

  method EntryAttributes(cfg: Config, entry: Entry, requested: seq<string>) returns (attrs: map<string, seq<string>>)
    ensures forall name :: name in attrs <==> Released(cfg, entry, requested, name) != []
    ensures forall name :: name in attrs ==> attrs[name] == Released(cfg, entry, requested, name)
  {
    var names := RequestedAttributes(requested, cfg.allowed);
    attrs := map[];
    for i := 0 to |names|
      invariant forall name :: name in attrs <==> name in names[..i] && Values(entry, name) != []
      invariant forall name :: name in attrs ==> attrs[name] == Values(entry, name)
    {
      var values := Values(entry, names[i]);
      if |values| > 0 {
        attrs := attrs[names[i] := values];
      }
      assert names[..i + 1] == names[..i] + [names[i]];
    }
    assert names[..|names|] == names;
    if cfg.groupsEnabled && cfg.response != "" && cfg.response in requested {
      var values := Values(entry, cfg.member);
      if |values| > 0 {
        attrs := attrs[cfg.response := values];
      }
    }
  }

  // ----- what leaves was asked for

  /** A name can be released exactly when it was requested and is allowed or is the group attribute with
      groups on. */
  lemma ReleasedIffPermitted(cfg: Config, requested: seq<string>, name: string)
    ensures (exists entry: Entry :: Released(cfg, entry, requested, name) != []) <==>
      name in requested && (name in cfg.allowed || (cfg.groupsEnabled && name == cfg.response && name != ""))
  {
    if name in requested && (name in cfg.allowed || (cfg.groupsEnabled && name == cfg.response && name != "")) {
      var entry: Entry := [Attribute(name, ["x"], []), Attribute(cfg.member, ["x"], [])];
      assert Values(entry, name) == ["x"] && Values(entry[1..], cfg.member) == ["x"];
      assert Released(cfg, entry, requested, name) != [];
    }
  }

  ghost predicate AskedInSomeCase(cfg: Config, requested: seq<string>, name: string) {
    exists asked :: AskedFor(cfg, requested, asked) && Lower(asked) == Lower(name)
  }

  /** The entry without the attributes that were not asked for, names compared as directories do. */
  ghost function Trimmed(cfg: Config, requested: seq<string>, entry: Entry): Entry {
    if entry == [] then []
    else
      var rest := Trimmed(cfg, requested, entry[1..]);
      if AskedInSomeCase(cfg, requested, entry[0].name) then [entry[0]] + rest else rest
  }

  lemma {:induction false} ValuesOfAsked(cfg: Config, requested: seq<string>, entry: Entry, name: string)
    requires AskedFor(cfg, requested, name)
    ensures Values(Trimmed(cfg, requested, entry), name) == Values(entry, name)
  {
    if entry != [] {
      ValuesOfAsked(cfg, requested, entry[1..], name);
      assert entry[0].name == name ==> AskedInSomeCase(cfg, requested, name);
    }
  }

  /** The subject is read from what was asked for. */
  lemma {:induction false} SubjectReadsOnlyAsked(cfg: Config, encode: Encoder, requested: seq<string>, entry: Entry)
    ensures SubjectValue(cfg, encode, Trimmed(cfg, requested, entry)) == SubjectValue(cfg, encode, entry)
  {
    if entry != [] && cfg.subject != "" {
      SubjectReadsOnlyAsked(cfg, encode, requested, entry[1..]);
      assert AskedFor(cfg, requested, cfg.subject);
    }
  }

  ghost predicate ReadsOnlyAsked(cfg: Config, requested: seq<string>) {
    forall entry: Entry, name: string ::
      Released(cfg, Trimmed(cfg, requested, entry), requested, name) == Released(cfg, entry, requested, name)
  }

  /** The response is computed from what was asked for, except when groups are wanted and the member
      attribute has the empty name, which is never added to the search. */
  lemma ResponseReadsOnlyAsked(cfg: Config, requested: seq<string>)
    ensures ReadsOnlyAsked(cfg, requested) <==>
      (cfg.WantsGroups(requested) && cfg.member == "" ==> "" in requested && "" in cfg.allowed)
  {
    if cfg.WantsGroups(requested) && cfg.member == "" && !("" in requested && "" in cfg.allowed) {
      UnnamedMemberIsRead(cfg, requested);
    } else {
      forall entry: Entry, name: string
        ensures Released(cfg, Trimmed(cfg, requested, entry), requested, name) == Released(cfg, entry, requested, name)
      {
        if cfg.WantsGroups(requested) {
          ValuesOfAsked(cfg, requested, entry, cfg.member);
        }
        if name in requested && name in cfg.allowed {
          ValuesOfAsked(cfg, requested, entry, name);
        }
      }
    }
  }

  lemma UnnamedMemberIsRead(cfg: Config, requested: seq<string>)
    requires cfg.WantsGroups(requested) && cfg.member == "" && !("" in requested && "" in cfg.allowed)
    ensures !ReadsOnlyAsked(cfg, requested)
  {
    var entry: Entry := [Attribute("", ["g"], [])];
    assert !AskedInSomeCase(cfg, requested, "") by {
      forall asked | AskedFor(cfg, requested, asked) ensures Lower(asked) != Lower("") {
        assert asked != "" && |Lower(asked)| == |asked|;
      }
    }
    assert Trimmed(cfg, requested, entry) == [];
    assert Released(cfg, entry, requested, cfg.response) == ["g"];
    assert Released(cfg, [], requested, cfg.response) == [];
  }
}
