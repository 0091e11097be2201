/** Attributes of a directory entry. */
module LdapEntry {

  datatype Attribute = Attribute(name: string, values: seq<string>, bytes: seq<string>)

  /** The values of the first attribute with exactly this name. */
  function Values(attributes: seq<Attribute>, name: string): seq<string> {
    if attributes == [] then []
    else if attributes[0].name == name then attributes[0].values
    else Values(attributes[1..], name)
  }

  // ----- the first attribute of a name decides

  lemma {:induction false} ValuesOfFirst(attributes: seq<Attribute>, name: string, i: nat)
    requires i < |attributes| && attributes[i].name == name && forall k :: 0 <= k < i ==> attributes[k].name != name
    ensures Values(attributes, name) == attributes[i].values
  {
    if i > 0 {
      ValuesOfFirst(attributes[1..], name, i - 1);
    }
  }

  lemma {:induction false} FirstOfValues(attributes: seq<Attribute>, name: string) returns (i: nat)
    requires Values(attributes, name) != []
    ensures i < |attributes| && attributes[i].name == name && forall k :: 0 <= k < i ==> attributes[k].name != name
  {
    if attributes[0].name == name {
      i := 0;
    } else {
      var j := FirstOfValues(attributes[1..], name);
      i := j + 1;
      forall k | 0 <= k < i ensures attributes[k].name != name {
        assert k > 0 ==> attributes[k] == attributes[1..][k - 1];
      }
    }
  }

  lemma {:induction false} NoSuchAttribute(attributes: seq<Attribute>, name: string)
    requires forall k :: 0 <= k < |attributes| ==> attributes[k].name != name
    ensures Values(attributes, name) == []
  {
    if attributes != [] {
      NoSuchAttribute(attributes[1..], name);
    }
  }
}
