/** The paged search loop (section 3 of RFC 2696). Requests and paging controls live on the heap, as the
    loop writes the server's cookie into a control that the request, and every copy of it, refers to. */
module PagedSearch {
  import opened Wrappers

  type Entry = string

  /** What can go wrong; all but `Referral` and `Remote` report the directory as unavailable. */
  datatype Failure = Late | BadLimit | Exceeded | NoResult | Closed | Referral | Remote(code: nat)

  /** Controls in a reply; `Unreadable` has the paging type but could not be decoded as one. */
  datatype ReplyControl = Cookie(cookie: string) | Unreadable | Foreign(name: string)

  datatype Page = Page(entries: seq<Entry>, referrals: seq<string>, controls: seq<ReplyControl>)

  datatype Reply = Reply(page: Option<Page>, failure: Option<Failure>)

  const EMPTY := Page([], [], [])

  /** What a search on a connection that has nothing more to say returns. */
  const CLOSED := Reply(None, Some(Closed))

  // ----- requests

  class PagingControl {
    const size: nat
    var cookie: string

    constructor (size: nat)
      ensures this.size == size && cookie == ""
    {
      this.size := size;
      cookie := "";
    }

    method SetCookie(value: string)
      modifies this
      ensures cookie == value
    {
      cookie := value;
    }
  }

  datatype Control = Paging(state: PagingControl) | Other(name: string)

  class SearchRequest {
    var base: string
    var controls: seq<Control>

    constructor (base: string, controls: seq<Control>)
      ensures this.base == base && this.controls == controls
    {
      this.base := base;
      this.controls := controls;
    }
  }

  /** A request as the server sees it. */
  datatype WireControl = WirePaging(size: nat, cookie: string) | WireOther(name: string)

  datatype Wire = Wire(base: string, controls: seq<WireControl>)

  ghost function Refs(controls: seq<Control>): set<PagingControl> {
    set i | 0 <= i < |controls| && controls[i].Paging? :: controls[i].state
  }

  ghost function Printed(controls: seq<Control>): seq<WireControl>
    reads Refs(controls)
  {
    if controls == [] then []
    else
      var front := controls[..|controls| - 1];
      assert Refs(front) <= Refs(controls);
      match controls[|controls| - 1]
      case Paging(state) => Printed(front) + [WirePaging(state.size, state.cookie)]
      case Other(name) => Printed(front) + [WireOther(name)]
  }

  /** The controls that are not for paging. */
  function Others(controls: seq<Control>): (r: seq<Control>)
    ensures forall i :: 0 <= i < |r| ==> r[i].Other?
  {
    if controls == [] then []
    else Others(controls[..|controls| - 1]) + (if controls[|controls| - 1].Other? then [controls[|controls| - 1]] else [])
  }

  method WithoutPagingControl(controls: seq<Control>) returns (r: seq<Control>)
    ensures r == Others(controls)
  {
    r := [];
    for i := 0 to |controls|
      invariant r == Others(controls[..i])
    {
      assert controls[..i + 1][..i] == controls[..i];
      if controls[i].Paging? {
        continue;
      }
      r := r + [controls[i]];
    }
    assert controls[..|controls|] == controls;
  }

  function Names(controls: seq<Control>): seq<WireControl>
    requires forall i :: 0 <= i < |controls| ==> controls[i].Other?
  {
    if controls == [] then [] else Names(controls[..|controls| - 1]) + [WireOther(controls[|controls| - 1].name)]
  }

  // ----- the server

  /** A connection to a server that will give these replies in turn. */
  class Conn {
    var script: seq<Reply>
    ghost var asked: seq<Wire>

    constructor (script: seq<Reply>)
      ensures this.script == script && asked == []
    {
      this.script := script;
      asked := [];
    }

    method Search(request: SearchRequest) returns (reply: Reply)
      modifies this
      ensures asked == old(asked + [Wire(request.base, Printed(request.controls))])
      ensures reply == At(old(script), 0)
      ensures script == if old(script) == [] then [] else old(script)[1..]
    {
      asked := asked + [Wire(request.base, Printed(request.controls))];
      reply := At(script, 0);
      if script != [] {
        script := script[1..];
      }
    }
  }

  function At(script: seq<Reply>, i: nat): Reply {
    if i < |script| then script[i] else CLOSED
  }

  // ----- what the loop computes

  function Merge(a: Page, b: Page): Page {
    Page(a.entries + b.entries, a.referrals + b.referrals, a.controls + b.controls)
  }

  function PageOf(reply: Reply): Page {
    if reply.page.Some? then reply.page.value else EMPTY
  }

  /** The first control of the paging type decides. */
  function NextCookie(controls: seq<ReplyControl>): Option<string> {
    if controls == [] then None
    else
      match controls[0]
      case Foreign(_) => NextCookie(controls[1..])
      case Unreadable => None
      case Cookie(c) => if c == "" then None else Some(c)
  }

  /** The first control of the paging type carries this cookie, and the cookie is not empty. */
  ghost predicate Offers(controls: seq<ReplyControl>, c: string) {
    c != "" && exists i :: 0 <= i < |controls| && controls[i] == Cookie(c) && forall k :: 0 <= k < i ==> controls[k].Foreign?
  }

  lemma {:induction false} CookieIsOffered(controls: seq<ReplyControl>, c: string)
    ensures NextCookie(controls) == Some(c) <==> Offers(controls, c)
  {
    if controls != [] && controls[0].Foreign? {
      var rest := controls[1..];
      CookieIsOffered(rest, c);
      if Offers(rest, c) {
        var i :| 0 <= i < |rest| && rest[i] == Cookie(c) && forall k :: 0 <= k < i ==> rest[k].Foreign?;
        assert controls[i + 1] == Cookie(c) && forall k :: 0 <= k < i + 1 ==> controls[k].Foreign?;
      }
      if Offers(controls, c) {
        var i :| 0 <= i < |controls| && controls[i] == Cookie(c) && forall k :: 0 <= k < i ==> controls[k].Foreign?;
        assert rest[i - 1] == Cookie(c) && forall k :: 0 <= k < i - 1 ==> rest[k].Foreign?;
      }
    }
  }

  /** The server says that there is more. */
  ghost predicate GoesOn(controls: seq<ReplyControl>) {
    exists c :: Offers(controls, c)
  }

  /** The exchange goes on after a reply exactly when it brought a page, no failure, and a cookie. */
  lemma EndsWithoutCookie(reply: Reply)
    ensures Ends(reply) <==> reply.failure.Some? || reply.page.None? || !GoesOn(reply.page.value.controls)
  {
    if reply.page.Some? {
      var controls := reply.page.value.controls;
      if NextCookie(controls).Some? {
        CookieIsOffered(controls, NextCookie(controls).value);
      }
      if GoesOn(controls) {
        var c :| Offers(controls, c);
        CookieIsOffered(controls, c);
      }
    }
  }

  /** No request follows this reply. */
  predicate Ends(reply: Reply) {
    reply.failure.Some? || reply.page.None? || NextCookie(reply.page.value.controls).None?
  }

  function Ending(reply: Reply): Option<Failure> {
    if reply.failure.Some? then reply.failure else if reply.page.None? then Some(NoResult) else None
  }

  /** All that a list of replies brought. */
  function Got(replies: seq<Reply>): Page {
    if replies == [] then EMPTY else Merge(Got(replies[..|replies| - 1]), PageOf(replies[|replies| - 1]))
  }

  /** What one reply leads to: the final answer, or another round with a cookie. */
  datatype Turn = Done(reply: Reply) | More(got: Page, cookie: string)

  function After(combined: Page, reply: Reply, max: nat): Turn {
    var got := if reply.page.Some? then Merge(combined, reply.page.value) else combined;
    if reply.page.Some? && |got.entries| > max then
      Done(Reply(Some(got.(entries := got.entries[..max])), Some(Exceeded)))
    else if Ends(reply) then Done(Reply(Some(got), Ending(reply)))
    else More(got, NextCookie(reply.page.value.controls).value)
  }

  /** The answer once `i` replies are in, and how many requests it took altogether. */
  function Answer(script: seq<Reply>, max: nat, i: nat): (r: (Reply, nat))
    requires i <= |script|
    ensures r.1 > i
    decreases |script| - i
  {
    match After(Got(script[..i]), At(script, i), max)
    case Done(reply) => (reply, i + 1)
    case More(_, _) => Answer(script, max, i + 1)
  }

  lemma AnswerByTurn(script: seq<Reply>, max: nat, i: nat)
    requires i <= |script|
    ensures match After(Got(script[..i]), At(script, i), max)
      case Done(reply) => Answer(script, max, i) == (reply, i + 1)
      case More(got, cookie) =>
        && i < |script| && Answer(script, max, i) == Answer(script, max, i + 1)
        && got == Got(script[..i + 1]) && cookie == CookieFor(script, i + 1)
  {
    if After(Got(script[..i]), At(script, i), max).More? {
      assert script[..i + 1][..i] == script[..i];
    }
  }

  function CookieFor(script: seq<Reply>, i: nat): string {
    if 0 < i <= |script| && script[i - 1].page.Some? then
      match NextCookie(script[i - 1].page.value.controls)
      case Some(c) => c
      case None => ""
    else ""
  }

  /** The first request carries no cookie, every later one the cookie that the reply before it offered. */
  lemma CookieIsPassedOn(script: seq<Reply>, i: nat)
    requires i < |script| && !Ends(script[i])
    ensures CookieFor(script, 0) == "" && Offers(script[i].page.value.controls, CookieFor(script, i + 1))
  {
    CookieIsOffered(script[i].page.value.controls, CookieFor(script, i + 1));
  }

  /** The requests of the first `n` rounds: one paging control, after the other controls, empty at first and
      then carrying the cookie of the reply before. */
  ghost function Rounds(base: string, others: seq<WireControl>, size: nat, script: seq<Reply>, n: nat): seq<Wire> {
    seq(n, i requires 0 <= i < n => Wire(base, others + [WirePaging(size, CookieFor(script, i))]))
  }

  /** What a control prints depends on its own cookie only. */
  twostate lemma {:induction false} PrintedStays(controls: seq<Control>)
    requires forall i :: 0 <= i < |controls| && controls[i].Paging? ==> unchanged(controls[i].state)
    ensures Printed(controls) == old(Printed(controls))
  {
    if controls != [] {
      PrintedStays(controls[..|controls| - 1]);
    }
  }

  lemma {:induction false} PrintedNames(others: seq<Control>)
    requires forall i :: 0 <= i < |others| ==> others[i].Other?
    ensures Printed(others) == Names(others)
  {
    if others != [] {
      PrintedNames(others[..|others| - 1]);
    }
  }

  lemma PrintedWithPaging(others: seq<Control>, state: PagingControl)
    requires forall i :: 0 <= i < |others| ==> others[i].Other?
    ensures Printed(others + [Paging(state)]) == Names(others) + [WirePaging(state.size, state.cookie)]
  {
    PrintedNames(others);
    assert (others + [Paging(state)])[..|others|] == others;
  }

  method SearchWithPagingLimit(conn: Conn, request: SearchRequest, size: nat, max: int) returns (r: Reply)
    modifies conn, request`controls
    ensures max <= 0 ==> r == Reply(None, Some(BadLimit)) && unchanged(conn) && unchanged(request)
    ensures max > 0 ==>
      var (answer, n) := Answer(old(conn.script), max, 0);
      && r == answer
      && conn.asked == old(conn.asked)
           + Rounds(request.base, Names(Others(old(request.controls))), size, old(conn.script), n)
    ensures max > 0 ==>
      && Others(request.controls) == Others(old(request.controls))
      && forall c :: c in Refs(request.controls) ==> fresh(c)
  {
    if max <= 0 {
      return Reply(None, Some(BadLimit));
    }
    var paging := new PagingControl(size);
    var others := WithoutPagingControl(request.controls);
    request.controls := others + [Paging(paging)];
    assert request.controls[..|others|] == others;
    OthersAreThemselves(others);
    r := Collect(conn, request, paging, others, max);
  }

  /** The loop, on a request whose controls end with a new paging control. */
  method Collect(conn: Conn, request: SearchRequest, paging: PagingControl, others: seq<Control>, max: nat) returns (r: Reply)
    requires forall i :: 0 <= i < |others| ==> others[i].Other?
    requires request.controls == others + [Paging(paging)] && paging.cookie == ""
    modifies conn, paging
    ensures
      var (answer, n) := Answer(old(conn.script), max, 0);
      && r == answer
      && conn.asked == old(conn.asked) + Rounds(request.base, Names(others), paging.size, old(conn.script), n)
  {
    ghost var script := conn.script;
    ghost var i := 0;
    var combined := EMPTY;
    while true
      invariant i <= |script| && conn.script == script[i..]
      invariant paging.cookie == CookieFor(script, i)
      invariant conn.asked == old(conn.asked) + Rounds(request.base, Names(others), paging.size, script, i)
      invariant combined == Got(script[..i])
      invariant Answer(script, max, 0) == Answer(script, max, i)
      decreases |script| - i
    {
      ghost var wire := Wire(request.base, Names(others) + [WirePaging(paging.size, CookieFor(script, i))]);
      assert Wire(request.base, Printed(request.controls)) == wire by {
        PrintedWithPaging(others, paging);
      }
      ghost var asked := conn.asked;
      var reply := conn.Search(request);
      assert conn.asked == asked + [wire];
      NextRound(request.base, Names(others), paging.size, script, i);
      AnswerByTurn(script, max, i);
      var turn := TakeReply(combined, reply, max);
      if turn.Done? {
        return turn.reply;
      }
      combined := turn.got;
      paging.SetCookie(turn.cookie);
      i := i + 1;
    }
  }

  /** The body of the loop after a reply has come in. */
  method TakeReply(before: Page, reply: Reply, max: nat) returns (turn: Turn)
    ensures turn == After(before, reply, max)
  {
    var combined := before;
    if reply.page.Some? {
      combined := Merge(combined, reply.page.value);
      if |combined.entries| > max {
        return Done(Reply(Some(combined.(entries := combined.entries[..max])), Some(Exceeded)));
      }
    }
    if reply.failure.Some? {
      return Done(Reply(Some(combined), reply.failure));
    }
    if reply.page.None? {
      return Done(Reply(Some(combined), Some(NoResult)));
    }
    var cookie := NextCookie(reply.page.value.controls);
    if cookie.None? {
      return Done(Reply(Some(combined), None));
    }
    return More(combined, cookie.value);
  }

  lemma {:induction false} OthersAreThemselves(others: seq<Control>)
    requires forall i :: 0 <= i < |others| ==> others[i].Other?
    ensures Others(others) == others
  {
    if others != [] {
      OthersAreThemselves(others[..|others| - 1]);
    }
  }

  lemma NextRound(base: string, others: seq<WireControl>, size: nat, script: seq<Reply>, i: nat)
    ensures Rounds(base, others, size, script, i + 1)
      == Rounds(base, others, size, script, i) + [Wire(base, others + [WirePaging(size, CookieFor(script, i))])]
  {
  }

  // ----- paging refines one unpaged search

  /** The replies up to and including the first that ends the exchange. */
  function Seen(script: seq<Reply>, i: nat): (r: seq<Reply>)
    requires i <= |script|
    ensures |r| > i && r[..i] == script[..i]
    decreases |script| - i
  {
    if i == |script| then script + [CLOSED]
    else if Ends(script[i]) then script[..i + 1]
    else
      var r := Seen(script, i + 1);
      assert r[..i] == r[..i + 1][..i];
      r
  }

  lemma {:induction false} GotGrows(replies: seq<Reply>, i: nat)
    requires i <= |replies|
    ensures Got(replies[..i]).entries <= Got(replies).entries
  {
    if i < |replies| {
      GotGrows(replies[..|replies| - 1], i);
      assert replies[..|replies| - 1][..i] == replies[..i];
    } else {
      assert replies[..i] == replies;
    }
  }

  lemma GotNext(script: seq<Reply>, i: nat, next: seq<Reply>)
    requires i <= |script| && next == script[..i] + [At(script, i)]
    ensures Got(next) == Merge(Got(script[..i]), PageOf(At(script, i)))
  {
    assert next[..i] == script[..i];
  }

  /** An error that carries exactly the first `max` entries of a list. */
  ghost predicate FirstOf(answer: Reply, all: seq<Entry>, max: nat)
    requires max < |all|
  {
    answer.failure == Some(Exceeded) && answer.page.Some? && answer.page.value.entries == all[..max]
  }

  lemma SeenEnds(script: seq<Reply>, i: nat)
    requires i <= |script| && Ends(At(script, i))
    ensures Seen(script, i) == script[..i] + [At(script, i)]
  {
    if i == |script| {
      assert script[..i] == script;
    }
  }

  /** A reply that ends the exchange decides the answer. */
  lemma TurnEnds(got: Page, reply: Reply, max: nat)
    requires Ends(reply) && |got.entries| <= max
    ensures var all, turn := Merge(got, PageOf(reply)), After(got, reply, max);
      && turn.Done?
      && (|all.entries| <= max ==> turn.reply == Reply(Some(all), Ending(reply)))
      && (|all.entries| > max ==> FirstOf(turn.reply, all.entries, max))
  {
    assert Merge(got, EMPTY) == got;
  }

  /** The whole answer follows from the concatenation of the pages: all of it with the last reply's error,
      if any, when it fits, and exactly its first `max` entries with an error when it does not. */
  lemma {:induction false} AnswerIsConcatenation(script: seq<Reply>, max: nat, i: nat)
    requires i <= |script| && |Got(script[..i]).entries| <= max
    ensures var seen, answer := Seen(script, i), Answer(script, max, i).0;
      && (|Got(seen).entries| <= max ==> answer == Reply(Some(Got(seen)), Ending(seen[|seen| - 1])))
      && (|Got(seen).entries| > max ==> FirstOf(answer, Got(seen).entries, max))
    decreases |script| - i
  {
    AnswerByTurn(script, max, i);
    if Ends(At(script, i)) {
      SeenEnds(script, i);
      GotNext(script, i, Seen(script, i));
      TurnEnds(Got(script[..i]), At(script, i), max);
    } else if |Got(script[..i + 1]).entries| > max {
      GotNext(script, i, script[..i + 1]);
      assert Seen(script, i)[..i + 1] == script[..i + 1];
      GotGrows(Seen(script, i), i + 1);
    } else {
      GotNext(script, i, script[..i + 1]);
      AnswerIsConcatenation(script, max, i + 1);
    }
  }

  // The parts of a list of replies, from the front.

  function AllEntries(replies: seq<Reply>): seq<Entry> {
    if replies == [] then []
    else (if replies[0].page.Some? then replies[0].page.value.entries else []) + AllEntries(replies[1..])
  }

  function AllReferrals(replies: seq<Reply>): seq<string> {
    if replies == [] then []
    else (if replies[0].page.Some? then replies[0].page.value.referrals else []) + AllReferrals(replies[1..])
  }

  function AllControls(replies: seq<Reply>): seq<ReplyControl> {
    if replies == [] then []
    else (if replies[0].page.Some? then replies[0].page.value.controls else []) + AllControls(replies[1..])
  }

  function Whole(replies: seq<Reply>): Page {
    Page(AllEntries(replies), AllReferrals(replies), AllControls(replies))
  }

  lemma WholeOfOne(reply: Reply)
    ensures Whole([reply]) == PageOf(reply)
  {
    assert [reply][1..] == [];
    assert AllEntries([]) == [] && AllReferrals([]) == [] && AllControls([]) == [];
    assert AllEntries([reply]) == PageOf(reply).entries;
    assert AllReferrals([reply]) == PageOf(reply).referrals;
    assert AllControls([reply]) == PageOf(reply).controls;
  }

  lemma {:induction false} WholeGrows(front: seq<Reply>, last: Reply)
    ensures Whole(front + [last]) == Merge(Whole(front), PageOf(last))
  {
    if front == [] {
      WholeOfOne(last);
      assert [] + [last] == [last];
    } else {
      assert (front + [last])[0] == front[0] && (front + [last])[1..] == front[1..] + [last];
      WholeGrows(front[1..], last);
    }
  }

  lemma {:induction false} GotIsWhole(replies: seq<Reply>)
    ensures Got(replies) == Whole(replies)
  {
    if replies != [] {
      var n := |replies| - 1;
      GotIsWhole(replies[..n]);
      WholeGrows(replies[..n], replies[n]);
      assert replies == replies[..n] + [replies[n]];
    }
  }

  /** A result list cut into pages: no reply fails, and every page but the last offers a cookie. */
  ghost predicate Paginates(script: seq<Reply>, whole: Page) {
    && script != []
    && (forall i :: 0 <= i < |script| ==> script[i].page.Some? && script[i].failure.None?)
    && (forall i :: 0 <= i < |script| ==> (GoesOn(script[i].page.value.controls) <==> i < |script| - 1))
    && Whole(script) == whole
  }

  lemma {:induction false} SeenOfPages(script: seq<Reply>, whole: Page, i: nat)
    requires Paginates(script, whole) && i < |script|
    ensures Seen(script, i) == script && Ends(script[|script| - 1])
    decreases |script| - i
  {
    EndsWithoutCookie(script[i]);
    if i < |script| - 1 {
      SeenOfPages(script, whole, i + 1);
    } else {
      assert script[..i + 1] == script;
    }
  }

  /** However a list is cut into pages, empty ones included, the loop returns the list when it has at most
      `max` entries, and else its first `max` entries and an error. */
  lemma PagingRefinesOneSearch(script: seq<Reply>, whole: Page, max: nat)
    requires Paginates(script, whole)
    ensures |whole.entries| <= max ==> Answer(script, max, 0).0 == Reply(Some(whole), None)
    ensures |whole.entries| > max ==> FirstOf(Answer(script, max, 0).0, whole.entries, max)
  {
    SeenOfPages(script, whole, 0);
    GotIsWhole(script);
    AnswerIsConcatenation(script, max, 0);
  }

  /** A list that fits is fetched with one request a page. */
  lemma {:induction false} EveryPageIsFetched(script: seq<Reply>, whole: Page, max: nat, i: nat)
    requires Paginates(script, whole) && |whole.entries| <= max && i < |script|
    ensures Answer(script, max, i).1 == |script|
    decreases |script| - i
  {
    AnswerByTurn(script, max, i);
    assert |Merge(Got(script[..i]), PageOf(script[i])).entries| <= max by {
      GotIsWhole(script);
      GotGrows(script, i + 1);
      GotNext(script, i, script[..i + 1]);
    }
    EndsWithoutCookie(script[i]);
    if i < |script| - 1 {
      EveryPageIsFetched(script, whole, max, i + 1);
    }
  }

  /** The loop stops asking at the first reply that ends the exchange or takes the total above `max`. */
  lemma {:induction false} AsksNoMoreThanNeeded(script: seq<Reply>, max: nat, i: nat, k: nat)
    requires i <= |script| && i <= k < Answer(script, max, i).1 - 1
    ensures k < |script| && !Ends(script[k]) && |Got(script[..k + 1]).entries| <= max
    decreases |script| - i
  {
    var next := script[..i] + [At(script, i)];
    GotNext(script, i, next);
    if i == k {
      assert next == script[..k + 1];
    } else {
      AsksNoMoreThanNeeded(script, max, i + 1, k);
    }
  }
}
