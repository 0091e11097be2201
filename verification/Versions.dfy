/** Version comparison and the advisory patterns built on it. */
module Versions {
  import opened Text

  // ----- parsing

  const MAX_INT := 0x7fff_ffff_ffff_ffff

  predicate Digit(c: char) {
    '0' <= c <= '9'
  }

  function Digits(s: string): (n: nat)
    ensures n <= |s| && forall i :: 0 <= i < n ==> Digit(s[i])
    ensures n < |s| ==> !Digit(s[n])
  {
    if s == "" || !Digit(s[0]) then 0 else 1 + Digits(s[1..])
  }

  function Decimal(s: string): nat
    requires forall i :: 0 <= i < |s| ==> Digit(s[i])
  {
    if s == "" then 0
    else
      assert Digit(s[|s| - 1]);
      10 * Decimal(s[..|s| - 1]) + (s[|s| - 1] - '0') as nat
  }

  function SkipBlanks(s: string): string {
    if s != "" && Space(s[0]) && s[0] != '\n' then SkipBlanks(s[1..]) else s
  }

  /** What scanning with `%d` leaves in a variable that was zero: the leading number if it fits in 64 bits. */
  function Number(part: string): int {
    var s := SkipBlanks(part);
    var signed := s != "" && (s[0] == '+' || s[0] == '-');
    var rest := if signed then s[1..] else s;
    var n: int := Decimal(rest[..Digits(rest)]);
    if signed && s[0] == '-' then (if n <= MAX_INT + 1 then -n else 0)
    else if n <= MAX_INT then n else 0
  }

  /** Everything before the first hyphen. */
  function Core(value: string): string {
    value[..IndexOf(value, '-')]
  }

  function Numbers(parts: seq<string>): (r: seq<int>)
    ensures |r| == |parts| && forall i :: 0 <= i < |r| ==> r[i] == Number(parts[i])
  {
    seq(|parts|, i requires 0 <= i < |parts| => Number(parts[i]))
  }

  function PartsOf(value: string): seq<int> {
    Numbers(Split(Core(value), '.'))
  }

  method VersionParts(value: string) returns (result: seq<int>)
    ensures result == PartsOf(value)
  {
    var parts := Split(Core(value), '.');
    result := [];
    for i := 0 to |parts|
      invariant result == Numbers(parts)[..i]
    {
      result := result + [Number(parts[i])];
    }
  }

  // ----- printed versions are read back

  function Printed(n: nat): (s: string)
    ensures s != "" && forall i :: 0 <= i < |s| ==> Digit(s[i])
  {
    var last := ['0' + (n % 10) as char];
    if n < 10 then last else Printed(n / 10) + last
  }

  lemma {:induction false} PrintedIsRead(n: nat)
    ensures Decimal(Printed(n)) == n
  {
    if n >= 10 {
      PrintedIsRead(n / 10);
      assert Printed(n)[..|Printed(n)| - 1] == Printed(n / 10);
    } else {
      assert Printed(n)[..0] == "";
    }
  }

  lemma {:induction false} AllDigits(s: string)
    requires forall i :: 0 <= i < |s| ==> Digit(s[i])
    ensures Digits(s) == |s|
  {
    if s != "" {
      AllDigits(s[1..]);
    }
  }

  lemma NumberOfPrinted(n: nat)
    requires n <= MAX_INT
    ensures Number(Printed(n)) == n
  {
    var s := Printed(n);
    assert Digit(s[0]);
    AllDigits(s);
    PrintedIsRead(n);
    assert s[..|s|] == s;
  }

  ghost predicate Blank(s: string) {
    forall i :: 0 <= i < |s| ==> Space(s[i]) && s[i] != '\n'
  }

  lemma {:induction false} BlanksAreSkipped(blanks: string, s: string)
    requires Blank(blanks) && (s == "" || !Space(s[0]))
    ensures SkipBlanks(blanks + s) == s
  {
    if blanks == "" {
      assert blanks + s == s;
    } else {
      assert (blanks + s)[1..] == blanks[1..] + s;
      BlanksAreSkipped(blanks[1..], s);
    }
  }

  lemma {:induction false} DigitsStop(s: string, rest: string)
    requires (forall i :: 0 <= i < |s| ==> Digit(s[i])) && (rest == "" || !Digit(rest[0]))
    ensures Digits(s + rest) == |s|
  {
    if s == "" {
      assert s + rest == rest;
    } else {
      assert (s + rest)[1..] == s[1..] + rest;
      DigitsStop(s[1..], rest);
    }
  }

  /** A part is read up to where its number ends, blanks before it and a plus sign aside; a number that does not
      fit is read as 0. */
  lemma NumberIsRead(blanks: string, sign: string, n: nat, rest: string)
    requires Blank(blanks) && (sign == "" || sign == "+") && (rest == "" || !Digit(rest[0]))
    ensures Number(blanks + sign + Printed(n) + rest) == if n <= 0x7fff_ffff_ffff_ffff then n else 0
  {
    var digits := Printed(n);
    NumberStart(blanks, sign, digits, rest);
    assert Digits(digits + rest) == |digits| && (digits + rest)[..|digits|] == digits by {
      DigitsStop(digits, rest);
    }
    PrintedIsRead(n);
  }

  lemma NumberStart(blanks: string, sign: string, digits: string, rest: string)
    requires Blank(blanks) && (sign == "" || sign == "+") && digits != "" && Digit(digits[0])
    ensures var s := SkipBlanks(blanks + sign + digits + rest);
      s != "" && (if sign == "+" then s[0] == '+' && s[1..] == digits + rest else s == digits + rest && s[0] != '+' && s[0] != '-')
  {
    var s := sign + digits + rest;
    assert blanks + sign + digits + rest == blanks + s;
    assert s[0] == if sign == "" then digits[0] else '+';
    BlanksAreSkipped(blanks, s);
    assert sign == "+" ==> s[1..] == digits + rest;
    assert sign == "" ==> s == digits + rest;
  }

  /** A part that does not start with a number is read as 0. */
  lemma NoNumberIsZero(blanks: string, s: string)
    requires Blank(blanks) && (s == "" || (!Space(s[0]) && !Digit(s[0]) && s[0] != '+' && s[0] != '-'))
    ensures Number(blanks + s) == 0
  {
    BlanksAreSkipped(blanks, s);
    assert s[..0] == "";
  }

  function PrintedParts(parts: seq<nat>): seq<string> {
    seq(|parts|, i requires 0 <= i < |parts| => Printed(parts[i]))
  }

  lemma CoreOf(front: string, rest: string)
    requires Without(front, '-') && (rest == "" || rest[0] == '-')
    ensures Core(front + rest) == front
  {
    var s := front + rest;
    assert rest != "" ==> s[|front|] == '-';
    assert IndexOf(s, '-') == |front|;
  }

  /** A dotted version, with or without a pre-release suffix, is read as the numbers it was printed from. */
  lemma PrintedVersionIsRead(parts: seq<nat>, suffix: string)
    requires parts != [] && (forall i :: 0 <= i < |parts| ==> parts[i] <= MAX_INT) && (suffix == "" || suffix[0] == '-')
    ensures PartsOf(Join(PrintedParts(parts), '.') + suffix) == parts
  {
    var printed := PrintedParts(parts);
    forall i | 0 <= i < |printed| ensures Without(printed[i], '.') && Without(printed[i], '-') {
      assert forall k :: 0 <= k < |printed[i]| ==> Digit(printed[i][k]);
    }
    JoinWithout(printed, '.', '-');
    CoreOf(Join(printed, '.'), suffix);
    SplitJoin(printed, '.');
    forall i | 0 <= i < |parts| ensures Number(printed[i]) == parts[i] {
      NumberOfPrinted(parts[i]);
    }
  }

  // ----- the order

  function At(parts: seq<int>, i: nat): int {
    if i < |parts| then parts[i] else 0
  }

  ghost predicate AgreeBelow(a: seq<int>, b: seq<int>, n: nat) {
    forall i: nat :: i < n ==> At(a, i) == At(b, i)
  }

  /** Lexicographic order on lists padded with zeros for ever. */
  ghost predicate Less(a: seq<int>, b: seq<int>) {
    exists n: nat :: AgreeBelow(a, b, n) && At(a, n) < At(b, n)
  }

  ghost predicate Same(a: seq<int>, b: seq<int>) {
    forall i: nat :: At(a, i) == At(b, i)
  }

  /** The sign of a comparison. */
  ghost function Sign(a: seq<int>, b: seq<int>): int {
    if Less(a, b) then -1 else if Less(b, a) then 1 else 0
  }

  method CompareVersions(left: string, right: string) returns (r: int)
    ensures r == Sign(PartsOf(left), PartsOf(right))
  {
    var a := VersionParts(left);
    var b := VersionParts(right);
    r := CompareParts(a, b);
  }

  method CompareParts(a: seq<int>, b: seq<int>) returns (r: int)
    ensures r == Sign(a, b)
  {
    var max := |a|;
    if |b| > max {
      max := |b|;
    }
    for i := 0 to max
      invariant AgreeBelow(a, b, i)
    {
      var leftValue := 0;
      var rightValue := 0;
      if i < |a| {
        leftValue := a[i];
      }
      if i < |b| {
        rightValue := b[i];
      }
      if leftValue < rightValue {
        LessAt(a, b, i);
        return -1;
      }
      if leftValue > rightValue {
        LessAt(b, a, i);
        return 1;
      }
    }
    assert Same(a, b);
    SameIsNotLess(a, b);
    return 0;
  }

  lemma LessAt(a: seq<int>, b: seq<int>, m: nat)
    requires AgreeBelow(a, b, m) && At(a, m) < At(b, m)
    ensures Less(a, b) && !Less(b, a) && !Same(a, b)
  {
    forall n: nat | AgreeBelow(b, a, n) ensures At(b, n) >= At(a, n) {
      assert n <= m;
    }
  }

  lemma SameIsNotLess(a: seq<int>, b: seq<int>)
    requires Same(a, b)
    ensures !Less(a, b) && !Less(b, a)
  {
  }

  /** Exactly one of less, greater and the same holds. */
  lemma Trichotomy(a: seq<int>, b: seq<int>)
    ensures !(Less(a, b) && Less(b, a)) && !(Less(a, b) && Same(a, b)) && !(Less(b, a) && Same(a, b))
    ensures Less(a, b) || Less(b, a) || Same(a, b)
  {
    if Less(a, b) {
      var m: nat :| AgreeBelow(a, b, m) && At(a, m) < At(b, m);
      LessAt(a, b, m);
    } else {
      FirstDifference(a, b, 0);
    }
    if Same(a, b) {
      SameIsNotLess(a, b);
    }
  }

  lemma {:induction false} FirstDifference(a: seq<int>, b: seq<int>, i: nat)
    requires AgreeBelow(a, b, i)
    ensures Less(a, b) || Less(b, a) || Same(a, b)
    decreases |a| + |b| - i
  {
    if At(a, i) < At(b, i) || At(b, i) < At(a, i) {
      assert AgreeBelow(b, a, i);
    } else if i < |a| + |b| {
      FirstDifference(a, b, i + 1);
    }
  }

  /** Not greater: the order read off a comparison that returns at most zero. */
  ghost predicate AtMost(a: seq<int>, b: seq<int>) {
    !Less(b, a)
  }

  lemma LessTransitive(a: seq<int>, b: seq<int>, c: seq<int>)
    requires Less(a, b) && Less(b, c)
    ensures Less(a, c)
  {
    var m: nat :| AgreeBelow(a, b, m) && At(a, m) < At(b, m);
    var n: nat :| AgreeBelow(b, c, n) && At(b, n) < At(c, n);
    var k := if m < n then m else n;
    assert AgreeBelow(a, c, k) && At(a, k) < At(c, k);
  }

  lemma SameRespectsLess(a: seq<int>, b: seq<int>, c: seq<int>)
    requires Same(a, b)
    ensures (Less(a, c) <==> Less(b, c)) && (Less(c, a) <==> Less(c, b))
  {
    assert forall n: nat :: AgreeBelow(a, c, n) == AgreeBelow(b, c, n);
    assert forall n: nat :: AgreeBelow(c, a, n) == AgreeBelow(c, b, n);
  }

  /** The comparison is a total preorder. */
  lemma AtMostIsTotalPreorder(a: seq<int>, b: seq<int>, c: seq<int>)
    ensures AtMost(a, b) || AtMost(b, a)
    ensures AtMost(a, b) && AtMost(b, c) ==> AtMost(a, c)
    ensures AtMost(a, b) && AtMost(b, a) <==> Same(a, b)
  {
    Trichotomy(a, b);
    Trichotomy(b, c);
    Trichotomy(a, c);
    if AtMost(a, b) && AtMost(b, c) {
      if Less(a, b) && Less(b, c) {
        LessTransitive(a, b, c);
      } else if Same(a, b) {
        SameRespectsLess(a, b, c);
      } else {
        SameRespectsLess(b, c, a);
      }
    }
  }

  function DropZeros(parts: seq<int>): seq<int> {
    if parts != [] && parts[|parts| - 1] == 0 then DropZeros(parts[..|parts| - 1]) else parts
  }

  lemma {:induction false} DropZerosIsSame(parts: seq<int>)
    ensures Same(DropZeros(parts), parts)
    ensures DropZeros(parts) == [] || DropZeros(parts)[|DropZeros(parts)| - 1] != 0
  {
    if parts != [] && parts[|parts| - 1] == 0 {
      var front := parts[..|parts| - 1];
      DropZerosIsSame(front);
      assert Same(front, parts);
    }
  }

  lemma LastIsNotZero(a: seq<int>, b: seq<int>)
    requires Same(a, b) && (a == [] || a[|a| - 1] != 0)
    ensures |a| <= |b|
  {
    assert a == [] || At(b, |a| - 1) == a[|a| - 1];
  }

  lemma SameJoins(a: seq<int>, b: seq<int>, c: seq<int>)
    requires Same(a, b) && Same(c, b)
    ensures Same(a, c) && Same(c, a)
  {
    forall i: nat ensures At(a, i) == At(c, i) {
      assert At(a, i) == At(b, i) && At(c, i) == At(b, i);
    }
  }

  /** Two part lists compare as equal exactly when they agree after dropping trailing zeros. */
  lemma SameIsEqualWithoutZeros(a: seq<int>, b: seq<int>)
    ensures Same(a, b) <==> DropZeros(a) == DropZeros(b)
  {
    var x, y := DropZeros(a), DropZeros(b);
    DropZerosIsSame(a);
    DropZerosIsSame(b);
    if x == y {
      SameJoins(a, x, b);
    }
    if Same(a, b) {
      SameJoins(x, a, b);
      SameJoins(x, b, y);
      LastIsNotZero(x, y);
      LastIsNotZero(y, x);
      forall i | 0 <= i < |x| ensures x[i] == y[i] {
        assert At(x, i) == At(y, i);
      }
    }
  }

  // ----- advisory patterns

  predicate HasPrefix(s: string, prefix: string) {
    prefix <= s
  }

  function Normalize(value: string): string {
    var s := Trim(value);
    if s != "" && s[0] == 'v' then s[1..] else s
  }

  lemma {:induction false} TrimLeftBlanks(blanks: string, s: string)
    requires (forall i :: 0 <= i < |blanks| ==> Space(blanks[i])) && (s == "" || !Space(s[0]))
    ensures TrimLeft(blanks + s) == s
  {
    if blanks == "" {
      assert blanks + s == s;
    } else {
      assert (blanks + s)[1..] == blanks[1..] + s;
      TrimLeftBlanks(blanks[1..], s);
    }
  }

  lemma {:induction false} TrimRightBlanks(blanks: string)
    requires forall i :: 0 <= i < |blanks| ==> Space(blanks[i])
    ensures TrimRight(blanks) == ""
  {
    if blanks != "" {
      TrimRightBlanks(blanks[..|blanks| - 1]);
    }
  }

  /** White space around a version and one leading `v` do not matter. */
  lemma NormalVersion(before: string, version: string, after: string)
    requires (forall i :: 0 <= i < |before| ==> Space(before[i])) && (forall i :: 0 <= i < |after| ==> Space(after[i]))
    requires version != "" && Tight(version) && version[0] != 'v'
    ensures Normalize(before + version + after) == version && Normalize(before + "v" + version + after) == version
  {
    assert before + version + after == before + (version + after);
    TrimLeftBlanks(before, version + after);
    TrimRightBlanks(after);
    TrimRightAfter(version, after);
    var marked := "v" + version;
    assert before + "v" + version + after == before + (marked + after);
    TrimLeftBlanks(before, marked + after);
    TrimRightAfter(marked, after);
    assert marked[1..] == version;
  }

  const OPERATORS: seq<string> := ["<=", ">=", "<", ">"]

  /** Which sign of the comparison an operator asks for. */
  predicate Wants(operator: string, compared: int) {
    match operator
    case "<=" => compared <= 0
    case ">=" => compared >= 0
    case "<" => compared < 0
    case _ => compared > 0
  }

  /** The number of operators tried before the one the candidate starts with, or all four. */
  function FirstOperator(candidate: string, i: nat): (n: nat)
    requires i <= |OPERATORS|
    ensures i <= n <= |OPERATORS|
    ensures forall k :: i <= k < n ==> !HasPrefix(candidate, OPERATORS[k])
    ensures n < |OPERATORS| ==> HasPrefix(candidate, OPERATORS[n])
    decreases |OPERATORS| - i
  {
    if i == |OPERATORS| || HasPrefix(candidate, OPERATORS[i]) then i else FirstOperator(candidate, i + 1)
  }

  ghost function Compared(current: string, bound: string): int {
    Sign(PartsOf(current), PartsOf(Normalize(bound)))
  }

  ghost predicate Matches(raw: string, current: string) {
    var candidate := Normalize(raw);
    var n := FirstOperator(candidate, 0);
    && candidate != ""
    && (
      || candidate == "*"
      || candidate == current
      || (n < |OPERATORS| && Wants(OPERATORS[n], Compared(current, candidate[|OPERATORS[n]|..])))
      || (n == |OPERATORS| && |candidate| >= 2 && candidate[|candidate| - 2..] == ".*"
          && HasPrefix(current, candidate[..|candidate| - 1])))
  }

  method AdvisoryVersionMatches(raw: string, current: string) returns (r: bool)
    ensures r == Matches(raw, current)
  {
    var candidate := Normalize(raw);
    if candidate == "" {
      return false;
    }
    if candidate == "*" || candidate == current {
      return true;
    }
    for i := 0 to |OPERATORS|
      invariant FirstOperator(candidate, 0) == FirstOperator(candidate, i)
    {
      if HasPrefix(candidate, OPERATORS[i]) {
        var bound := Normalize(candidate[|OPERATORS[i]|..]);
        var compared := CompareVersions(current, bound);
        return Wants(OPERATORS[i], compared);
      }
    }
    if |candidate| >= 2 && candidate[|candidate| - 2..] == ".*" {
      return HasPrefix(current, candidate[..|candidate| - 1]);
    }
    return false;
  }

  ghost predicate Affects(affected: seq<string>, current: string) {
    exists i :: 0 <= i < |affected| && Matches(affected[i], current)
  }

  ghost predicate AnyFrom(p: string -> bool, list: seq<string>, i: nat)
    requires i <= |list|
    decreases |list| - i
  {
    i < |list| && (p(list[i]) || AnyFrom(p, list, i + 1))
  }

  lemma {:induction false} AnyFromMeans(p: string -> bool, list: seq<string>, i: nat)
    requires i <= |list|
    ensures AnyFrom(p, list, i) <==> exists k :: i <= k < |list| && p(list[k])
    decreases |list| - i
  {
    if i < |list| {
      AnyFromMeans(p, list, i + 1);
    }
  }

  lemma AffectsMeans(affected: seq<string>, current: string, p: string -> bool)
    requires p == (v => Matches(v, current))
    ensures Affects(affected, current) <==> exists k :: 0 <= k < |affected| && p(affected[k])
  {
    if k :| 0 <= k < |affected| && p(affected[k]) {
      assert Matches(affected[k], current);
    }
    if k :| 0 <= k < |affected| && Matches(affected[k], current) {
      assert p(affected[k]);
    }
  }

  /** An advisory affects a version iff one of its patterns matches it. */
  method AdvisoryAffectsVersion(affected: seq<string>, current: string) returns (r: bool)
    ensures r == Affects(affected, Normalize(current))
  {
    var normalized := Normalize(current);
    ghost var p := (v: string) => Matches(v, normalized);
    assert Affects(affected, normalized) == AnyFrom(p, affected, 0) by {
      AffectsMeans(affected, normalized, p);
      AnyFromMeans(p, affected, 0);
    }
    for i := 0 to |affected|
      invariant AnyFrom(p, affected, 0) == AnyFrom(p, affected, i)
    {
      var matches := AdvisoryVersionMatches(affected[i], normalized);
      if matches {
        return true;
      }
    }
    return false;
  }

  // ----- opposite bounds

  lemma {:induction false} TrimRightAfter(front: string, back: string)
    requires front != "" && !Space(front[|front| - 1])
    ensures TrimRight(front + back) == front + TrimRight(back)
  {
    if back == "" {
      assert front + back == front;
    } else if Space(back[|back| - 1]) {
      var n := |back| - 1;
      assert (front + back)[..|front| + n] == front + back[..n];
      TrimRightAfter(front, back[..n]);
    } else {
      assert (front + back)[|front + back| - 1] == back[|back| - 1];
    }
  }

  lemma NormalizeBound(operator: string, bound: string)
    requires operator in OPERATORS
    ensures Normalize(operator + bound) == operator + TrimRight(bound)
  {
    assert operator[0] == '<' || operator[0] == '>';
    assert TrimLeft(operator + bound) == operator + bound;
    TrimRightAfter(operator, bound);
  }

  /** The operator the pattern starts with is the one that was written, unless the bound continues it. */
  lemma OperatorFound(k: nat, bound: string)
    requires k < |OPERATORS| && !(HasPrefix(bound, "="))
    ensures FirstOperator(OPERATORS[k] + bound, 0) == k
  {
    var candidate := OPERATORS[k] + bound;
    assert candidate[..|OPERATORS[k]|] == OPERATORS[k];
    assert HasPrefix(candidate, OPERATORS[k]);
    assert candidate[0] == OPERATORS[k][0];
    assert k >= 2 && bound != "" ==> candidate[1] == bound[0];
  }

  /** A pattern of an operator and a bound asks for a sign of the comparison and nothing else. */
  lemma BoundMatches(k: nat, bound: string, current: string)
    requires k < |OPERATORS| && !HasPrefix(bound, "=") && !HasPrefix(current, "<") && !HasPrefix(current, ">")
    ensures Matches(OPERATORS[k] + bound, current) <==> Wants(OPERATORS[k], Compared(current, TrimRight(bound)))
  {
    var operator := OPERATORS[k];
    var rest := TrimRight(bound);
    NormalizeBound(operator, bound);
    TrimRightEnds(bound);
    OperatorFound(k, rest);
    var candidate := operator + rest;
    assert HasPrefix(candidate, "<") || HasPrefix(candidate, ">");
    assert candidate[|operator|..] == rest;
  }

  /** What each operator means, in terms of the order. */
  lemma BoundsMean(bound: string, current: string)
    requires !HasPrefix(bound, "=") && !HasPrefix(current, "<") && !HasPrefix(current, ">")
    ensures var a, b := PartsOf(current), PartsOf(Normalize(TrimRight(bound)));
      && (Matches("<" + bound, current) <==> Less(a, b))
      && (Matches("<=" + bound, current) <==> Less(a, b) || Same(a, b))
      && (Matches(">" + bound, current) <==> Less(b, a))
      && (Matches(">=" + bound, current) <==> Less(b, a) || Same(a, b))
  {
    BoundMatches(0, bound, current);
    BoundMatches(1, bound, current);
    BoundMatches(2, bound, current);
    BoundMatches(3, bound, current);
    Trichotomy(PartsOf(current), PartsOf(Normalize(TrimRight(bound))));
  }

  /** Opposite bounds split the versions between them: no version matches both and none escapes both. */
  lemma OppositeBounds(bound: string, current: string)
    requires !HasPrefix(bound, "=") && !HasPrefix(current, "<") && !HasPrefix(current, ">")
    ensures Matches("<" + bound, current) <==> !Matches(">=" + bound, current)
    ensures Matches("<=" + bound, current) <==> !Matches(">" + bound, current)
  {
    BoundMatches(0, bound, current);
    BoundMatches(1, bound, current);
    BoundMatches(2, bound, current);
    BoundMatches(3, bound, current);
  }

  /** Ranges of bounds nest as the bounds do. */
  lemma BoundsNest(low: string, high: string, current: string)
    requires !HasPrefix(low, "=") && !HasPrefix(high, "=") && !HasPrefix(current, "<") && !HasPrefix(current, ">")
    requires AtMost(PartsOf(Normalize(TrimRight(low))), PartsOf(Normalize(TrimRight(high))))
    ensures Matches("<" + low, current) ==> Matches("<" + high, current)
    ensures Matches("<=" + low, current) ==> Matches("<=" + high, current)
    ensures Matches(">=" + high, current) ==> Matches(">=" + low, current)
    ensures Matches(">" + high, current) ==> Matches(">" + low, current)
  {
    BoundMatches(2, low, current);
    BoundMatches(2, high, current);
    BoundMatches(3, low, current);
    BoundMatches(3, high, current);
    OppositeBounds(low, current);
    OppositeBounds(high, current);
    NestedSigns(PartsOf(current), PartsOf(Normalize(TrimRight(low))), PartsOf(Normalize(TrimRight(high))));
  }

  lemma NestedSigns(a: seq<int>, low: seq<int>, high: seq<int>)
    requires AtMost(low, high)
    ensures Sign(a, low) < 0 ==> Sign(a, high) < 0
    ensures Sign(a, high) > 0 ==> Sign(a, low) > 0
  {
    Trichotomy(low, high);
    Trichotomy(a, low);
    Trichotomy(a, high);
    if Same(low, high) {
      SameRespectsLess(low, high, a);
    } else if Less(a, low) {
      LessTransitive(a, low, high);
    } else if Less(high, a) {
      LessTransitive(low, high, a);
    }
  }
}
