/** The canonical query line: sorted keys, sorted values, percent-encoding (section 2.1 of RFC 3986). */
module Query {
  import opened Text

  type Values = map<string, seq<string>>

  /** Strings are byte strings; only bytes can be percent-encoded in two digits. */
  predicate Bytes(s: string) {
    forall i :: 0 <= i < |s| ==> s[i] as int < 256
  }

  predicate Unreserved(c: char) {
    'a' <= c <= 'z' || 'A' <= c <= 'Z' || '0' <= c <= '9' || c == '-' || c == '_' || c == '.' || c == '~'
  }

  function HexDigit(n: nat): (c: char)
    requires n < 16
    ensures HexValue(c) == n && Unreserved(c) && c == "0123456789ABCDEF"[n]
  {
    if n < 10 then (n + 48) as char else (n + 55) as char
  }

  function HexValue(c: char): int {
    if '0' <= c <= '9' then c as int - 48 else c as int - 55
  }

  function EscapeByte(c: char): (r: string)
    requires c as int < 256
  {
    if Unreserved(c) then [c]
    else if c == ' ' then "+"
    else ['%', HexDigit(c as int / 16), HexDigit(c as int % 16)]
  }

  function Escape(s: string): string
    requires Bytes(s)
  {
    if s == "" then "" else EscapeByte(s[0]) + Escape(s[1..])
  }

  function Unescape(s: string): string {
    if s == "" then ""
    else if s[0] == '+' then [' '] + Unescape(s[1..])
    else if s[0] == '%' && |s| >= 3 then
      var n := HexValue(s[1]) * 16 + HexValue(s[2]);
      (if 0 <= n < 256 then [n as char] else []) + Unescape(s[3..])
    else [s[0]] + Unescape(s[1..])
  }

  /** A blank becomes a plus sign, letters, digits and `-_.~` stay, and any other byte becomes a percent sign and
      two upper-case hexadecimal digits. */
  lemma EscapedBytes(c: char)
    requires c as int < 256
    ensures c == ' ' ==> EscapeByte(c) == "+"
    ensures 'a' <= c <= 'z' || 'A' <= c <= 'Z' || '0' <= c <= '9' || c in "-_.~" ==> EscapeByte(c) == [c]
    ensures c != ' ' && !('a' <= c <= 'z' || 'A' <= c <= 'Z' || '0' <= c <= '9' || c in "-_.~") ==>
      EscapeByte(c) == ['%', "0123456789ABCDEF"[c as int / 16], "0123456789ABCDEF"[c as int % 16]]
  {
  }

  lemma {:induction false} UnescapeEscape(s: string)
    requires Bytes(s)
    ensures Unescape(Escape(s)) == s
  {
    if s != "" {
      var rest := Escape(s[1..]);
      UnescapeEscape(s[1..]);
      assert s == [s[0]] + s[1..];
      if Unreserved(s[0]) || s[0] == ' ' {
        assert Escape(s)[1..] == rest;
      } else {
        assert Escape(s)[3..] == rest;
        assert HexValue(Escape(s)[1]) == s[0] as int / 16 && HexValue(Escape(s)[2]) == s[0] as int % 16;
      }
    }
  }

  lemma {:induction false} EscapeIsPlain(s: string, c: char)
    requires Bytes(s) && !Unreserved(c) && c != '+' && c != '%'
    ensures Without(Escape(s), c)
  {
    if s != "" {
      EscapeIsPlain(s[1..], c);
    }
  }

  // ----- the line

  ghost predicate AllBytes(values: Values) {
    forall key :: key in values ==> Bytes(key) && forall i :: 0 <= i < |values[key]| ==> Bytes(values[key][i])
  }

  function Part(key: string, value: string): string
    requires Bytes(key) && Bytes(value)
  {
    Escape(key) + "=" + Escape(value)
  }

  datatype Pair = Pair(key: string, value: string)

  /** One pair per value, in the order given. */
  function PairsOf(key: string, values: seq<string>): seq<Pair> {
    if values == [] then [] else [Pair(key, values[0])] + PairsOf(key, values[1..])
  }

  function Pairs(values: Values, keys: seq<string>): seq<Pair>
    requires forall i :: 0 <= i < |keys| ==> keys[i] in values
  {
    if keys == [] then [] else PairsOf(keys[0], Sort(values[keys[0]])) + Pairs(values, keys[1..])
  }

  predicate PairBytes(pairs: seq<Pair>) {
    forall i :: 0 <= i < |pairs| ==> Bytes(pairs[i].key) && Bytes(pairs[i].value)
  }

  function Parts(pairs: seq<Pair>): (parts: seq<string>)
    requires PairBytes(pairs)
    ensures |parts| == |pairs|
  {
    if pairs == [] then [] else [Part(pairs[0].key, pairs[0].value)] + Parts(pairs[1..])
  }

  lemma {:induction false} PairsOfBytes(key: string, values: seq<string>)
    requires Bytes(key) && forall i :: 0 <= i < |values| ==> Bytes(values[i])
    ensures PairBytes(PairsOf(key, values))
  {
    if values != [] {
      PairsOfBytes(key, values[1..]);
    }
  }

  lemma SortBytes(values: seq<string>)
    requires forall i :: 0 <= i < |values| ==> Bytes(values[i])
    ensures forall i :: 0 <= i < |Sort(values)| ==> Bytes(Sort(values)[i])
  {
    forall i | 0 <= i < |Sort(values)| ensures Bytes(Sort(values)[i]) {
      assert Sort(values)[i] in multiset(Sort(values));
    }
  }

  lemma {:induction false} PairsBytes(values: Values, keys: seq<string>)
    requires AllBytes(values) && forall i :: 0 <= i < |keys| ==> keys[i] in values
    ensures PairBytes(Pairs(values, keys))
  {
    if keys != [] {
      SortBytes(values[keys[0]]);
      PairsOfBytes(keys[0], Sort(values[keys[0]]));
      PairsBytes(values, keys[1..]);
    }
  }

  ghost function AllPairs(values: Values): (pairs: seq<Pair>)
    requires AllBytes(values)
    ensures PairBytes(pairs)
  {
    KeysAreKeys(values);
    PairsBytes(values, Sorting(values.Keys));
    Pairs(values, Sorting(values.Keys))
  }

  lemma KeysAreKeys(values: Values)
    ensures forall i :: 0 <= i < |Sorting(values.Keys)| ==> Sorting(values.Keys)[i] in values
  {
    forall i | 0 <= i < |Sorting(values.Keys)| ensures Sorting(values.Keys)[i] in values {
      SortingMembers(values.Keys, Sorting(values.Keys)[i]);
    }
  }

  ghost function Line(values: Values): string
    requires AllBytes(values)
  {
    Join(Parts(AllPairs(values)), '&')
  }

  lemma BytesAppend(a: seq<Pair>, b: seq<Pair>)
    requires PairBytes(a) && PairBytes(b)
    ensures PairBytes(a + b)
  {
  }

  lemma PartsHead(pair: Pair, rest: seq<Pair>)
    requires PairBytes([pair] + rest)
    ensures PairBytes(rest) && Bytes(pair.key) && Bytes(pair.value)
    ensures Parts([pair] + rest) == [Part(pair.key, pair.value)] + Parts(rest)
  {
    var all := [pair] + rest;
    assert all[0] == pair && all[1..] == rest;
    assert forall i :: 0 <= i < |rest| ==> rest[i] == all[i + 1];
  }

  lemma {:induction false} PartsAppend(a: seq<Pair>, b: seq<Pair>)
    requires PairBytes(a) && PairBytes(b)
    ensures PairBytes(a + b) && Parts(a + b) == Parts(a) + Parts(b)
  {
    BytesAppend(a, b);
    if a == [] {
      assert a + b == b;
    } else {
      var rest := a[1..];
      assert a == [a[0]] + rest && a + b == [a[0]] + (rest + b);
      PartsHead(a[0], rest);
      PartsHead(a[0], rest + b);
      PartsAppend(rest, b);
    }
  }

  lemma {:induction false} PairsOfAppend(key: string, a: seq<string>, x: string)
    ensures PairsOf(key, a + [x]) == PairsOf(key, a) + [Pair(key, x)]
  {
    if a != [] {
      assert (a + [x])[1..] == a[1..] + [x];
      PairsOfAppend(key, a[1..], x);
    }
  }

  lemma {:induction false} PairsAppend(values: Values, a: seq<string>, key: string)
    requires (forall i :: 0 <= i < |a| ==> a[i] in values) && key in values
    ensures Pairs(values, a + [key]) == Pairs(values, a) + PairsOf(key, Sort(values[key]))
  {
    if a == [] {
      assert a + [key] == [key] && [key][1..] == [];
    } else {
      assert (a + [key])[1..] == a[1..] + [key];
      PairsAppend(values, a[1..], key);
    }
  }

  /** The innermost loop: one part per value of a key. */
  method AppendValues(parts0: seq<string>, key: string, values: seq<string>) returns (parts: seq<string>)
    requires Bytes(key) && forall i :: 0 <= i < |values| ==> Bytes(values[i])
    ensures PairBytes(PairsOf(key, values)) && parts == parts0 + Parts(PairsOf(key, values))
  {
    parts := parts0;
    for i := 0 to |values|
      invariant PairBytes(PairsOf(key, values[..i])) && parts == parts0 + Parts(PairsOf(key, values[..i]))
    {
      assert values[..i + 1] == values[..i] + [values[i]];
      PairsOfAppend(key, values[..i], values[i]);
      PartsAppend(PairsOf(key, values[..i]), [Pair(key, values[i])]);
      parts := parts + [Part(key, values[i])];
    }
    assert values[..|values|] == values;
  }

  /** The keys of a map, walked in an arbitrary order and then sorted. */
  method SortedKeys(values: Values) returns (keys: seq<string>)
    ensures keys == Sorting(values.Keys)
  {
    var pending := values.Keys;
    keys := [];
    while pending != {}
      invariant multiset(keys) + multiset(pending) == multiset(values.Keys)
      decreases pending
    {
      var key :| key in pending;
      assert multiset(pending) == multiset(pending - {key}) + multiset{key};
      pending, keys := pending - {key}, keys + [key];
    }
    assert multiset(keys) == multiset(values.Keys);
    SortOfDistinct(keys, values.Keys);
    keys := Sort(keys);
  }

  lemma NextKey(values: Values, keys: seq<string>, i: nat)
    requires AllBytes(values) && i < |keys| && forall j :: 0 <= j < |keys| ==> keys[j] in values
    ensures PairBytes(Pairs(values, keys[..i])) && PairBytes(Pairs(values, keys[..i + 1]))
    ensures forall j :: 0 <= j < |Sort(values[keys[i]])| ==> Bytes(Sort(values[keys[i]])[j])
    ensures PairBytes(PairsOf(keys[i], Sort(values[keys[i]])))
    ensures Parts(Pairs(values, keys[..i + 1])) == Parts(Pairs(values, keys[..i])) + Parts(PairsOf(keys[i], Sort(values[keys[i]])))
  {
    assert keys[..i + 1] == keys[..i] + [keys[i]];
    PairsBytes(values, keys[..i]);
    PairsAppend(values, keys[..i], keys[i]);
    SortBytes(values[keys[i]]);
    PairsOfBytes(keys[i], Sort(values[keys[i]]));
    PartsAppend(Pairs(values, keys[..i]), PairsOf(keys[i], Sort(values[keys[i]])));
  }

  method Render(values: Values, keys: seq<string>) returns (parts: seq<string>)
    requires AllBytes(values) && forall j :: 0 <= j < |keys| ==> keys[j] in values
    ensures PairBytes(Pairs(values, keys)) && parts == Parts(Pairs(values, keys))
  {
    parts := [];
    for i := 0 to |keys|
      invariant PairBytes(Pairs(values, keys[..i])) && parts == Parts(Pairs(values, keys[..i]))
    {
      NextKey(values, keys, i);
      parts := AppendValues(parts, keys[i], Sort(values[keys[i]]));
    }
    assert keys[..|keys|] == keys;
  }

  method CanonicalQuery(values: Values) returns (line: string)
    requires AllBytes(values)
    ensures line == Line(values)
  {
    if values == map[] {
      assert Sorting(values.Keys) == [];
      return "";
    }
    var keys := SortedKeys(values);
    KeysAreKeys(values);
    var parts := Render(values, keys);
    line := Join(parts, '&');
  }

  // ----- the line is an exact normal form

  lemma PartIsPlain(key: string, value: string)
    requires Bytes(key) && Bytes(value)
    ensures Without(Part(key, value), '&') && Without(Part(key, value), '\n') && Part(key, value) != ""
  {
    EscapeIsPlain(key, '&');
    EscapeIsPlain(value, '&');
    EscapeIsPlain(key, '\n');
    EscapeIsPlain(value, '\n');
  }

  lemma SplitPair(a: string, b: string)
    requires Without(a, '=') && Without(b, '=')
    ensures Split(a + "=" + b, '=') == [a, b]
  {
    SplitJoin([a, b], '=');
    assert Join([a, b], '=') == a + "=" + b;
  }

  lemma PartIsInjective(k: string, v: string, k': string, v': string)
    requires Bytes(k) && Bytes(v) && Bytes(k') && Bytes(v') && Part(k, v) == Part(k', v')
    ensures k == k' && v == v'
  {
    EscapeIsPlain(k, '=');
    EscapeIsPlain(v, '=');
    EscapeIsPlain(k', '=');
    EscapeIsPlain(v', '=');
    SplitPair(Escape(k), Escape(v));
    SplitPair(Escape(k'), Escape(v'));
    assert [Escape(k), Escape(v)][0] == [Escape(k'), Escape(v')][0];
    assert [Escape(k), Escape(v)][1] == [Escape(k'), Escape(v')][1];
    UnescapeEscape(k);
    UnescapeEscape(k');
    UnescapeEscape(v);
    UnescapeEscape(v');
  }

  lemma {:induction false} PartsArePlain(pairs: seq<Pair>, i: nat)
    requires PairBytes(pairs) && i < |pairs|
    ensures Parts(pairs)[i] == Part(pairs[i].key, pairs[i].value)
    ensures Without(Parts(pairs)[i], '&') && Without(Parts(pairs)[i], '\n') && Parts(pairs)[i] != ""
  {
    if i == 0 {
      PartIsPlain(pairs[0].key, pairs[0].value);
    } else {
      PartsArePlain(pairs[1..], i - 1);
    }
  }

  lemma JoinIsEmpty(pairs: seq<Pair>)
    requires PairBytes(pairs)
    ensures Join(Parts(pairs), '&') == "" <==> pairs == []
  {
    if pairs != [] {
      PartsArePlain(pairs, 0);
    }
  }

  lemma PairsAreRecovered(a: seq<Pair>, b: seq<Pair>)
    requires PairBytes(a) && PairBytes(b) && Join(Parts(a), '&') == Join(Parts(b), '&')
    ensures a == b
  {
    JoinIsEmpty(a);
    JoinIsEmpty(b);
    if a != [] {
      forall i | 0 <= i < |a| ensures Without(Parts(a)[i], '&') { PartsArePlain(a, i); }
      forall i | 0 <= i < |b| ensures Without(Parts(b)[i], '&') { PartsArePlain(b, i); }
      SplitJoin(Parts(a), '&');
      SplitJoin(Parts(b), '&');
      forall i | 0 <= i < |a| ensures a[i] == b[i] {
        PartsArePlain(a, i);
        PartsArePlain(b, i);
        PartIsInjective(a[i].key, a[i].value, b[i].key, b[i].value);
      }
    }
  }

  /** The values a list of pairs gives to a key, in order. */
  function ValuesFor(pairs: seq<Pair>, key: string): seq<string> {
    if pairs == [] then []
    else (if pairs[0].key == key then [pairs[0].value] else []) + ValuesFor(pairs[1..], key)
  }

  lemma {:induction false} ValuesForAppend(a: seq<Pair>, b: seq<Pair>, key: string)
    ensures ValuesFor(a + b, key) == ValuesFor(a, key) + ValuesFor(b, key)
  {
    if a == [] {
      assert a + b == b;
    } else {
      assert (a + b)[1..] == a[1..] + b;
      ValuesForAppend(a[1..], b, key);
    }
  }

  lemma {:induction false} ValuesForPairsOf(of: string, values: seq<string>, key: string)
    ensures ValuesFor(PairsOf(of, values), key) == if of == key then values else []
  {
    if values != [] {
      ValuesForPairsOf(of, values[1..], key);
      assert PairsOf(of, values)[1..] == PairsOf(of, values[1..]);
    }
  }

  lemma ValuesForFirst(of: string, sorted: seq<string>, rest: seq<Pair>, key: string)
    ensures ValuesFor(PairsOf(of, sorted) + rest, key) == (if of == key then sorted else []) + ValuesFor(rest, key)
  {
    ValuesForAppend(PairsOf(of, sorted), rest, key);
    ValuesForPairsOf(of, sorted, key);
  }

  lemma {:induction false} ValuesForPairs(values: Values, keys: seq<string>, key: string)
    requires forall i :: 0 <= i < |keys| ==> keys[i] in values
    requires forall i, j :: 0 <= i < j < |keys| ==> keys[i] != keys[j]
    ensures ValuesFor(Pairs(values, keys), key) == if key in keys then Sort(values[key]) else []
  {
    if keys != [] {
      ValuesForFirst(keys[0], Sort(values[keys[0]]), Pairs(values, keys[1..]), key);
      ValuesForPairs(values, keys[1..], key);
      assert keys == [keys[0]] + keys[1..];
    }
  }

  /** Reading a key's values back from the pairs. */
  lemma PairsDetermineValues(values: Values, key: string)
    requires AllBytes(values)
    ensures ValuesFor(AllPairs(values), key) == if key in values then Sort(values[key]) else []
  {
    var keys := Sorting(values.Keys);
    KeysAreKeys(values);
    SetSequenceIsDistinct(keys, values.Keys);
    ValuesForPairs(values, keys, key);
    SortingMembers(values.Keys, key);
  }

  ghost predicate SameQuery(a: Values, b: Values) {
    a.Keys == b.Keys && forall key :: key in a ==> multiset(a[key]) == multiset(b[key])
  }

  ghost predicate HasValues(values: Values) {
    forall key :: key in values ==> values[key] != []
  }

  lemma {:induction false} SameQuerySamePairs(a: Values, b: Values, keys: seq<string>)
    requires SameQuery(a, b) && forall i :: 0 <= i < |keys| ==> keys[i] in a
    ensures Pairs(a, keys) == Pairs(b, keys)
  {
    if keys != [] {
      SortedIsUnique(Itself, Sort(a[keys[0]]), Sort(b[keys[0]]));
      SameQuerySamePairs(a, b, keys[1..]);
    }
  }

  /** Two queries print the same line exactly when they have the same keys and, per key, the same values
      however often and in whatever order. */
  lemma LineIsNormalForm(a: Values, b: Values)
    requires AllBytes(a) && AllBytes(b) && HasValues(a) && HasValues(b)
    ensures Line(a) == Line(b) <==> SameQuery(a, b)
  {
    if SameQuery(a, b) {
      SameQuerySameLine(a, b);
    }
    if Line(a) == Line(b) {
      PairsAreRecovered(AllPairs(a), AllPairs(b));
      SamePairsSameQuery(a, b);
    }
  }

  lemma SamePairsSameQuery(a: Values, b: Values)
    requires AllBytes(a) && AllBytes(b) && HasValues(a) && HasValues(b) && AllPairs(a) == AllPairs(b)
    ensures SameQuery(a, b)
  {
    forall key ensures (key in a <==> key in b) && (key in a ==> multiset(a[key]) == multiset(b[key])) {
      SamePairsSameValues(a, b, key);
    }
  }

  lemma SameQuerySameLine(a: Values, b: Values)
    requires AllBytes(a) && AllBytes(b) && SameQuery(a, b)
    ensures Line(a) == Line(b)
  {
    KeysAreKeys(a);
    SameQuerySamePairs(a, b, Sorting(a.Keys));
  }

  lemma SamePairsSameValues(a: Values, b: Values, key: string)
    requires AllBytes(a) && AllBytes(b) && HasValues(a) && HasValues(b) && AllPairs(a) == AllPairs(b)
    ensures (key in a <==> key in b) && (key in a ==> multiset(a[key]) == multiset(b[key]))
  {
    PairsDetermineValues(a, key);
    PairsDetermineValues(b, key);
    assert key in a ==> |multiset(Sort(a[key]))| == |multiset(a[key])| > 0;
    assert key in b ==> |multiset(Sort(b[key]))| == |multiset(b[key])| > 0;
  }

  // ----- a reader for the line

  function ReadPart(part: string): Pair {
    var n := IndexOf(part, '=');
    Pair(Unescape(part[..n]), if n < |part| then Unescape(part[n + 1..]) else "")
  }

  function ReadParts(parts: seq<string>): seq<Pair> {
    seq(|parts|, i requires 0 <= i < |parts| => ReadPart(parts[i]))
  }

  function ReadLine(line: string): seq<Pair> {
    if line == "" then [] else ReadParts(Split(line, '&'))
  }

  lemma PartIsRead(key: string, value: string)
    requires Bytes(key) && Bytes(value)
    ensures ReadPart(Part(key, value)) == Pair(key, value)
  {
    var part := Part(key, value);
    EscapeIsPlain(key, '=');
    assert part[|Escape(key)|] == '=';
    assert IndexOf(part, '=') == |Escape(key)|;
    assert part[..|Escape(key)|] == Escape(key) && part[|Escape(key)| + 1..] == Escape(value);
    UnescapeEscape(key);
    UnescapeEscape(value);
  }

  /** Reading the line gives the keys in bytewise order, and each key's values in bytewise order. */
  lemma LineIsRead(values: Values)
    requires AllBytes(values)
    ensures ReadLine(Line(values)) == AllPairs(values)
  {
    var pairs := AllPairs(values);
    JoinIsEmpty(pairs);
    if pairs != [] {
      forall i | 0 <= i < |pairs| ensures Without(Parts(pairs)[i], '&') && ReadPart(Parts(pairs)[i]) == pairs[i] {
        PartsArePlain(pairs, i);
        PartIsRead(pairs[i].key, pairs[i].value);
      }
      SplitJoin(Parts(pairs), '&');
      assert ReadParts(Parts(pairs)) == pairs;
    }
  }

  lemma LineHasNoNewline(values: Values)
    requires AllBytes(values)
    ensures Without(Line(values), '\n')
  {
    var parts := Parts(AllPairs(values));
    forall i | 0 <= i < |parts| ensures Without(parts[i], '\n') {
      PartsArePlain(AllPairs(values), i);
    }
    JoinWithout(parts, '&', '\n');
  }
}
