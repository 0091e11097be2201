/** Byte strings the way the Go code uses them: joining, splitting, ordering and sorting.
    A string is a sequence of characters that stand for bytes. */
module Text {

  ghost predicate Without(s: string, c: char) {
    forall i :: 0 <= i < |s| ==> s[i] != c
  }

  // ----- strings.Join and strings.Split with a one-byte separator

  function Join(parts: seq<string>, sep: char): string {
    if parts == [] then ""
    else if |parts| == 1 then parts[0]
    else parts[0] + [sep] + Join(parts[1..], sep)
  }

  /** The number of bytes before the first `sep`, or the whole length. */
  function IndexOf(s: string, sep: char): (n: nat)
    ensures n <= |s|
    ensures forall i :: 0 <= i < n ==> s[i] != sep
    ensures n < |s| ==> s[n] == sep
  {
    if s == "" || s[0] == sep then 0 else 1 + IndexOf(s[1..], sep)
  }

  function Split(s: string, sep: char): (parts: seq<string>)
    ensures |parts| >= 1
    decreases |s|
  {
    var n := IndexOf(s, sep);
    if n == |s| then [s] else [s[..n]] + Split(s[n + 1..], sep)
  }

  lemma {:induction false} SplitJoin(parts: seq<string>, sep: char)
    requires parts != []
    requires forall i :: 0 <= i < |parts| ==> Without(parts[i], sep)
    ensures Split(Join(parts, sep), sep) == parts
  {
    var s := Join(parts, sep);
    if |parts| == 1 {
      assert IndexOf(s, sep) == |s|;
    } else {
      var n := |parts[0]|;
      assert s[n] == sep && s[..n] == parts[0] && s[n + 1..] == Join(parts[1..], sep);
      assert IndexOf(s, sep) == n;
      SplitJoin(parts[1..], sep);
    }
  }

  lemma {:induction false} SplitParts(s: string, sep: char, i: nat)
    requires i < |Split(s, sep)|
    ensures Without(Split(s, sep)[i], sep)
    ensures forall k :: 0 <= k < |Split(s, sep)[i]| ==> Split(s, sep)[i][k] in s
    decreases |s|
  {
    var n := IndexOf(s, sep);
    if n < |s| && i > 0 {
      SplitParts(s[n + 1..], sep, i - 1);
    }
  }

  lemma {:induction false} JoinWithout(parts: seq<string>, sep: char, c: char)
    requires c != sep && forall i :: 0 <= i < |parts| ==> Without(parts[i], c)
    ensures Without(Join(parts, sep), c)
  {
    if |parts| > 1 {
      JoinWithout(parts[1..], sep, c);
    }
  }

  lemma {:induction false} JoinAppend(front: seq<string>, back: seq<string>, sep: char)
    requires front != [] && back != []
    ensures Join(front + back, sep) == Join(front, sep) + [sep] + Join(back, sep)
  {
    if |front| == 1 {
      assert (front + back)[1..] == back;
    } else {
      assert (front + back)[1..] == front[1..] + back;
      JoinAppend(front[1..], back, sep);
    }
  }

  // ----- bytewise order and sort.Strings

  predicate Leq(a: string, b: string) {
    a == "" || (b != "" && (a[0] < b[0] || (a[0] == b[0] && Leq(a[1..], b[1..]))))
  }

  /** Bytewise order: a prefix comes first, and otherwise the first byte that differs decides. */
  lemma {:induction false} LeqIsBytewise(a: string, b: string)
    ensures Leq(a, b) <==> a <= b || exists i :: 0 <= i < |a| && i < |b| && a[..i] == b[..i] && a[i] < b[i]
  {
    if a != "" && b != "" && a[0] == b[0] {
      var x, y := a[1..], b[1..];
      assert a == [a[0]] + x && b == [a[0]] + y;
      LeqIsBytewise(x, y);
      if i :| 0 <= i < |x| && i < |y| && x[..i] == y[..i] && x[i] < y[i] {
        assert a[..i + 1] == [a[0]] + x[..i] && b[..i + 1] == [a[0]] + y[..i];
      }
      if i :| 0 <= i < |a| && i < |b| && a[..i] == b[..i] && a[i] < b[i] {
        assert x[..i - 1] == a[..i][1..] && y[..i - 1] == b[..i][1..];
      }
    } else if a != "" && b != "" && a[0] < b[0] {
      assert a[..0] == b[..0];
    } else if a != "" && b != "" {
      assert forall i :: 0 < i < |a| && i < |b| ==> a[..i][0] != b[..i][0];
    }
  }

  lemma {:induction false} LeqTotal(a: string, b: string)
    ensures Leq(a, b) || Leq(b, a)
    ensures Leq(a, b) && Leq(b, a) ==> a == b
  {
    if a != "" && b != "" && a[0] == b[0] {
      LeqTotal(a[1..], b[1..]);
      assert a == [a[0]] + a[1..] && b == [b[0]] + b[1..];
    }
  }

  lemma {:induction false} LeqTransitive(a: string, b: string, c: string)
    requires Leq(a, b) && Leq(b, c)
    ensures Leq(a, c)
  {
    if a != "" && a[0] == b[0] == c[0] {
      LeqTransitive(a[1..], b[1..], c[1..]);
    }
  }

  /** Sorted by a string key, as `sort.Slice` leaves a slice. */
  ghost predicate SortedBy<T>(f: T -> string, s: seq<T>) {
    forall i, j :: 0 <= i < j < |s| ==> Leq(f(s[i]), f(s[j]))
  }

  function Itself(x: string): string { x }

  lemma HeadIsLeast<T>(f: T -> string, s: seq<T>, x: T)
    requires SortedBy(f, s) && x in s
    ensures Leq(f(s[0]), f(x))
  {
    LeqTotal(f(x), f(x));
  }

  /** The key tells the elements apart. */
  ghost predicate Separates<T>(f: T -> string, s: seq<T>) {
    forall x, y :: x in s && y in s && f(x) == f(y) ==> x == y
  }

  lemma SameHead<T>(f: T -> string, a: seq<T>, b: seq<T>)
    requires SortedBy(f, a) && SortedBy(f, b) && multiset(a) == multiset(b) && a != [] && b != [] && Separates(f, a)
    ensures a[0] == b[0]
  {
    assert a[0] in multiset(b) && b[0] in multiset(a);
    HeadIsLeast(f, a, b[0]);
    HeadIsLeast(f, b, a[0]);
    LeqTotal(f(a[0]), f(b[0]));
  }

  lemma TailKeeps<T>(f: T -> string, s: seq<T>)
    requires s != []
    ensures SortedBy(f, s) ==> SortedBy(f, s[1..])
    ensures Separates(f, s) ==> Separates(f, s[1..])
    ensures multiset(s[1..]) == multiset(s) - multiset{s[0]}
  {
    assert s == [s[0]] + s[1..];
  }

  lemma SameLength<T>(a: seq<T>, b: seq<T>)
    requires multiset(a) == multiset(b)
    ensures |a| == |b|
  {
    assert |multiset(a)| == |a| && |multiset(b)| == |b|;
  }

  /** There is one sorted arrangement of given elements, whatever order they came in. */
  lemma {:induction false} SortedIsUnique<T>(f: T -> string, a: seq<T>, b: seq<T>)
    requires SortedBy(f, a) && SortedBy(f, b) && multiset(a) == multiset(b) && Separates(f, a)
    ensures a == b
  {
    SameLength(a, b);
    if a != [] {
      assert a[0] == b[0] by {
        SameHead(f, a, b);
      }
      assert a[1..] == b[1..] by {
        TailKeeps(f, a);
        TailKeeps(f, b);
        SortedIsUnique(f, a[1..], b[1..]);
      }
      assert a == [a[0]] + a[1..] && b == [b[0]] + b[1..];
    }
  }

  function Insert<T>(f: T -> string, x: T, s: seq<T>): (r: seq<T>)
    requires SortedBy(f, s)
    ensures SortedBy(f, r) && multiset(r) == multiset(s) + multiset{x}
  {
    if s == [] then [x]
    else if Leq(f(x), f(s[0])) then
      assert forall i :: 0 <= i < |s| ==> Leq(f(x), f(s[i])) by {
        forall i | 0 < i < |s| ensures Leq(f(x), f(s[i])) { LeqTransitive(f(x), f(s[0]), f(s[i])); }
      }
      [x] + s
    else
      var rest := Insert(f, x, s[1..]);
      assert s == [s[0]] + s[1..];
      assert forall i :: 0 <= i < |rest| ==> Leq(f(s[0]), f(rest[i])) by {
        LeqTotal(f(x), f(s[0]));
        forall i | 0 <= i < |rest| ensures Leq(f(s[0]), f(rest[i])) {
          assert rest[i] in multiset(rest);
          assert rest[i] == x || rest[i] in s[1..];
        }
      }
      [s[0]] + rest
  }

  /** What `sort.Strings` and `sort.Slice` leave behind. */
  function SortBy<T>(f: T -> string, s: seq<T>): (r: seq<T>)
    ensures SortedBy(f, r) && multiset(r) == multiset(s)
  {
    if s == [] then []
    else
      assert s == [s[0]] + s[1..];
      Insert(f, s[0], SortBy(f, s[1..]))
  }

  function Sort(s: seq<string>): (r: seq<string>)
    ensures SortedBy(Itself, r) && multiset(r) == multiset(s)
  {
    SortBy(Itself, s)
  }

  /** The elements of a set in order: what sorting a list of them gives, however it was collected. */
  ghost function Sorting(s: set<string>): (r: seq<string>)
    ensures SortedBy(Itself, r) && multiset(r) == multiset(s)
  {
    if s == {} then []
    else
      var x :| x in s;
      assert multiset(s) == multiset(s - {x}) + multiset{x};
      Insert(Itself, x, Sorting(s - {x}))
  }

  lemma SortOfDistinct(s: seq<string>, elements: set<string>)
    requires multiset(s) == multiset(elements)
    ensures Sort(s) == Sorting(elements)
  {
    SortedIsUnique(Itself, Sort(s), Sorting(elements));
  }

  lemma SortingMembers(s: set<string>, x: string)
    ensures x in Sorting(s) <==> x in s
  {
    assert x in multiset(Sorting(s)) <==> x in multiset(s);
  }

  lemma SetSequenceIsDistinct(s: seq<string>, elements: set<string>)
    requires multiset(s) == multiset(elements)
    ensures forall i, j :: 0 <= i < j < |s| ==> s[i] != s[j]
  {
    forall i, j | 0 <= i < j < |s| ensures s[i] != s[j] {
      assert s == s[..i] + [s[i]] + s[i + 1..];
      assert s[j] in s[i + 1..];
      assert multiset(s)[s[i]] <= 1;
      assert multiset(s) == multiset(s[..i]) + multiset{s[i]} + multiset(s[i + 1..]);
    }
  }

  // ----- white space and case, for ASCII

  predicate Space(c: char) {
    c == ' ' || 9 as char <= c <= 13 as char
  }

  /** White space: blank, tab, line feed, vertical tab, form feed and carriage return. */
  lemma SpaceBytes(c: char)
    ensures Space(c) <==> c == ' ' || c == '\t' || c == '\n' || c as int == 11 || c as int == 12 || c == '\r'
  {
  }

  function TrimLeft(s: string): string {
    if s != "" && Space(s[0]) then TrimLeft(s[1..]) else s
  }

  function TrimRight(s: string): string {
    if s != "" && Space(s[|s| - 1]) then TrimRight(s[..|s| - 1]) else s
  }

  function Trim(s: string): string {
    TrimRight(TrimLeft(s))
  }

  function LowerByte(c: char): (r: char)
    ensures 'A' <= c <= 'Z' ==> 'a' <= r <= 'z' && r as int - 'a' as int == c as int - 'A' as int
    ensures !('A' <= c <= 'Z') ==> r == c
  {
    if 'A' <= c <= 'Z' then (c as int + 32) as char else c
  }

  function Lower(s: string): string {
    seq(|s|, i requires 0 <= i < |s| => LowerByte(s[i]))
  }

  lemma TrimLeftShrinks(s: string)
    ensures |TrimLeft(s)| <= |s|
    ensures TrimLeft(s) == "" || !Space(TrimLeft(s)[0])
  {
  }

  ghost predicate Tight(s: string) {
    s == "" || (!Space(s[0]) && !Space(s[|s| - 1]))
  }

  lemma {:induction false} TrimRightEnds(s: string)
    ensures TrimRight(s) <= s
    ensures TrimRight(s) == "" || !Space(TrimRight(s)[|TrimRight(s)| - 1])
  {
    if s != "" && Space(s[|s| - 1]) {
      TrimRightEnds(s[..|s| - 1]);
    }
  }

  lemma TrimIsTight(s: string)
    ensures Tight(Trim(s)) && (Tight(s) ==> Trim(s) == s)
  {
    TrimLeftShrinks(s);
    TrimRightEnds(TrimLeft(s));
  }
}
