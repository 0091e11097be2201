/** A search that follows one hop of referrals to allowlisted servers. */
module Referrals {
  import opened PagedSearch
  import opened Text
  import opened Wrappers

  datatype Config = Config(paged: bool, size: nat, max: int, mode: string, reuseServiceBind: bool,
                           startTls: bool, allowedUrls: seq<string>)
  {
    predicate Follows() {
      mode == "allowlist" && reuseServiceBind
    }

    function Scheme(): string {
      if startTls then "ldap" else "ldaps"
    }
  }

  datatype Url = Url(scheme: string, host: string, path: string)

  /** URL parsing and path unescaping are given from outside. */
  datatype Urls = Urls(parse: string -> Option<Url>, unescape: string -> Option<string>)

  // ----- which referrals are allowed

  datatype Place = Place(endpoint: string, base: string)

  predicate Usable(cfg: Config, url: Option<Url>) {
    url.Some? && url.value.host != "" && url.value.scheme == cfg.Scheme()
  }

  function Endpoint(url: Url): string {
    url.scheme + "://" + Lower(url.host)
  }

  function Base(urls: Urls, url: Url): string {
    var path := if url.path != "" && url.path[0] == '/' then url.path[1..] else url.path;
    if path != "" && urls.unescape(path).Some? then urls.unescape(path).value else path
  }

  /** Some allowlisted URL of the configured scheme has the same host, whatever its case. */
  ghost predicate Listed(cfg: Config, urls: Urls, host: string) {
    exists i :: 0 <= i < |cfg.allowedUrls| && Usable(cfg, urls.parse(cfg.allowedUrls[i]))
      && Lower(urls.parse(cfg.allowedUrls[i]).value.host) == Lower(host)
  }

  ghost function Allowed(cfg: Config, urls: Urls, raw: string): Option<Place> {
    var url := urls.parse(raw);
    if Usable(cfg, url) && Listed(cfg, urls, url.value.host) then Some(Place(Endpoint(url.value), Base(urls, url.value))) else None
  }

  lemma EndpointsMatchByHost(a: Url, b: Url)
    requires a.scheme == b.scheme
    ensures Endpoint(a) == Endpoint(b) <==> Lower(a.host) == Lower(b.host)
  {
    var n := |a.scheme| + 3;
    assert Endpoint(a)[n..] == Lower(a.host) && Endpoint(b)[n..] == Lower(b.host);
  }

  method AllowedReferral(cfg: Config, urls: Urls, raw: string) returns (r: Option<Place>)
    ensures r == Allowed(cfg, urls, raw)
  {
    var parsed := urls.parse(raw);
    if !Usable(cfg, parsed) {
      return None;
    }
    var endpoint := Endpoint(parsed.value);
    for i := 0 to |cfg.allowedUrls|
      invariant forall k :: 0 <= k < i && Usable(cfg, urls.parse(cfg.allowedUrls[k])) ==>
        Lower(urls.parse(cfg.allowedUrls[k]).value.host) != Lower(parsed.value.host)
    {
      var allowed := urls.parse(cfg.allowedUrls[i]);
      if !Usable(cfg, allowed) {
        continue;
      }
      EndpointsMatchByHost(allowed.value, parsed.value);
      if Endpoint(allowed.value) == endpoint {
        return Some(Place(endpoint, Base(urls, parsed.value)));
      }
    }
    return None;
  }

  /** A URL can be followed iff it was parsed, has a host, and its scheme is plain `ldap` with StartTLS and
      `ldaps` without. */
  lemma UsableUrls(cfg: Config, url: Option<Url>)
    ensures Usable(cfg, url) <==>
      url.Some? && url.value.host != "" && (if cfg.startTls then url.value.scheme == "ldap" else url.value.scheme == "ldaps")
  {
  }

  /** The search base is the URL's path without one leading slash, unescaped where that is possible. */
  lemma BaseOfPath(urls: Urls, url: Url, rest: string)
    requires url.path == "/" + rest || (url.path == rest && !("/" <= rest))
    ensures rest == "" ==> Base(urls, url) == ""
    ensures rest != "" ==> Base(urls, url) == match urls.unescape(rest) case Some(base) => base case None => rest
  {
    assert url.path == "/" + rest ==> url.path[1..] == rest;
  }

  // ----- one search

  /** `late` is set when the deadline has passed before a paged search starts. */
  function OneSearch(cfg: Config, late: bool, script: seq<Reply>): Reply {
    if !cfg.paged then At(script, 0)
    else if late then Reply(None, Some(Late))
    else if cfg.max <= 0 then Reply(None, Some(BadLimit))
    else Answer(script, cfg.max, 0).0
  }

  /** The controls of a request: as printed, and those that are not for paging. */
  datatype Sent = Sent(base: string, printed: seq<WireControl>, others: seq<WireControl>)

  ghost function Sending(request: SearchRequest): Sent
    reads request, Refs(request.controls)
  {
    Sent(request.base, Printed(request.controls), Names(Others(request.controls)))
  }

  /** The requests of one search: a fresh paged exchange, or the request as it stands. */
  ghost function Asked(cfg: Config, late: bool, sent: Sent, script: seq<Reply>): seq<Wire> {
    if !cfg.paged then [Wire(sent.base, sent.printed)]
    else if late || cfg.max <= 0 then []
    else Rounds(sent.base, sent.others, cfg.size, script, Answer(script, cfg.max, 0).1)
  }

  method SearchOnce(cfg: Config, conn: Conn, request: SearchRequest, late: bool) returns (r: Reply)
    modifies conn, request`controls
    ensures r == OneSearch(cfg, late, old(conn.script))
    ensures conn.asked == old(conn.asked + Asked(cfg, late, Sending(request), conn.script))
    ensures Others(request.controls) == Others(old(request.controls))
    ensures !cfg.paged ==> unchanged(request)
  {
    if !cfg.paged {
      r := conn.Search(request);
      return;
    }
    if late {
      return Reply(None, Some(Late));
    }
    r := SearchWithPagingLimit(conn, request, cfg.size, cfg.max);
  }

  // ----- following

  /** What lies behind a referral: no connection, or a server with its answer to the service bind. */
  datatype Target = Refused(failure: Failure) | Reached(bind: Option<Failure>, late: bool, script: seq<Reply>)

  type Answered<T> = Fallible<T, Failure>

  ghost function Hop(cfg: Config, urls: Urls, referral: string, target: Target): Answered<Page> {
    if Allowed(cfg, urls, referral).None? then Err(Referral)
    else if target.Refused? then Err(target.failure)
    else if target.bind.Some? then Err(target.bind.value)
    else
      var reply := OneSearch(cfg, target.late, target.script);
      if reply.failure.Some? then Err(reply.failure.value)
      else if PageOf(reply).referrals != [] then Err(Referral)
      else Ok(PageOf(reply))
  }

  ghost function Hops(cfg: Config, urls: Urls, referrals: seq<string>, targets: nat -> Target): seq<Answered<Page>> {
    seq(|referrals|, i requires 0 <= i < |referrals| => Hop(cfg, urls, referrals[i], targets(i)))
  }

  /** The pages of all hops put together, or the first failure. */
  ghost function Chain(hops: seq<Answered<Page>>): Answered<Page> {
    if hops == [] then Ok(EMPTY)
    else
      match Chain(hops[..|hops| - 1])
      case Err(e) => Err(e)
      case Ok(got) =>
        match hops[|hops| - 1]
        case Err(e) => Err(e)
        case Ok(page) => Ok(Merge(got, page))
  }

  lemma {:induction false} FailureStays(hops: seq<Answered<Page>>, i: nat)
    requires i <= |hops| && Chain(hops[..i]).Err?
    ensures Chain(hops) == Chain(hops[..i])
  {
    if i < |hops| {
      assert hops[..|hops| - 1][..i] == hops[..i];
      FailureStays(hops[..|hops| - 1], i);
    } else {
      assert hops[..i] == hops;
    }
  }

  /** After successful hops, the next one adds its page or decides the failure of the whole. */
  lemma ChainNext(hops: seq<Answered<Page>>, k: nat)
    requires k < |hops| && Chain(hops[..k]).Ok?
    ensures match hops[k]
      case Err(_) => Chain(hops) == hops[k]
      case Ok(page) => Chain(hops[..k + 1]) == Ok(Merge(Chain(hops[..k]).value, page))
  {
    assert hops[..k + 1][..k] == hops[..k];
    if hops[k].Err? {
      FailureStays(hops, k + 1);
    }
  }

  lemma HopsHaveNoReferrals(cfg: Config, urls: Urls, referral: string, target: Target)
    ensures Hop(cfg, urls, referral, target).Ok? ==> Hop(cfg, urls, referral, target).value.referrals == []
  {
  }

  /** Copies the request; the copy's control list refers to the same control objects. */
  method CloneSearchRequest(request: SearchRequest) returns (copy: SearchRequest)
    ensures fresh(copy) && copy.base == request.base && copy.controls == request.controls
  {
    copy := new SearchRequest(request.base, request.controls);
  }

  /** The exchange with the server behind a referral, under the base its URL names, if any. */
  ghost function HopAsked(cfg: Config, urls: Urls, sent: Sent, referral: string, target: Target): seq<Wire> {
    var place := Allowed(cfg, urls, referral);
    if place.None? || target.Refused? || target.bind.Some? then []
    else
      var base := if place.value.base != "" then place.value.base else sent.base;
      Asked(cfg, target.late, sent.(base := base), target.script)
  }

  method TryReferral(cfg: Config, urls: Urls, original: SearchRequest, referral: string, target: Target)
    returns (r: Answered<Page>, ghost asked: seq<Wire>)
    ensures r == Hop(cfg, urls, referral, target)
    ensures asked == HopAsked(cfg, urls, old(Sending(original)), referral, target)
  {
    asked := [];
    var place := AllowedReferral(cfg, urls, referral);
    if place.None? {
      return Err(Referral), [];
    }
    if target.Refused? {
      return Err(target.failure), [];
    }
    var conn := new Conn(target.script);
    if target.bind.Some? {
      return Err(target.bind.value), [];
    }
    var request := CloneSearchRequest(original);
    if place.value.base != "" {
      request.base := place.value.base;
    }
    PrintedStays(original.controls);
    var reply := SearchOnce(cfg, conn, request, target.late);
    asked := conn.asked;
    if reply.failure.Some? {
      return Err(reply.failure.value), asked;
    }
    if PageOf(reply).referrals != [] {
      return Err(Referral), asked;
    }
    return Ok(PageOf(reply)), asked;
  }

  /** The exchanges with the servers tried, in order. */
  ghost predicate Exchanges(cfg: Config, urls: Urls, sent: Sent, referrals: seq<string>, targets: nat -> Target, asked: seq<seq<Wire>>) {
    |asked| <= |referrals| && forall i: nat :: i < |asked| ==> asked[i] == HopAsked(cfg, urls, sent, referrals[i], targets(i))
  }

  lemma ExchangesGrow(cfg: Config, urls: Urls, sent: Sent, referrals: seq<string>, targets: nat -> Target, asked: seq<seq<Wire>>)
    requires |asked| < |referrals| && Exchanges(cfg, urls, sent, referrals, targets, asked)
    ensures Exchanges(cfg, urls, sent, referrals, targets,
                      asked + [HopAsked(cfg, urls, sent, referrals[|asked|], targets(|asked|))])
  {
  }

  method FollowReferrals(cfg: Config, urls: Urls, original: SearchRequest, referrals: seq<string>, targets: nat -> Target)
    returns (r: Answered<Page>, ghost asked: seq<seq<Wire>>)
    ensures r == Chain(Hops(cfg, urls, referrals, targets))
    ensures Exchanges(cfg, urls, old(Sending(original)), referrals, targets, asked)
    ensures r.Ok? ==> |asked| == |referrals|
  {
    ghost var sent := Sending(original);
    ghost var hops := Hops(cfg, urls, referrals, targets);
    var combined := EMPTY;
    asked := [];
    for i := 0 to |referrals|
      invariant Chain(hops[..i]) == Ok(combined)
      invariant |asked| == i && Exchanges(cfg, urls, sent, referrals, targets, asked)
    {
      assert Sending(original) == sent by {
        PrintedStays(original.controls);
      }
      var hop, exchange := TryReferral(cfg, urls, original, referrals[i], targets(i));
      ExchangesGrow(cfg, urls, sent, referrals, targets, asked);
      asked := asked + [exchange];
      ChainNext(hops, i);
      if hop.Err? {
        return Err(hop.error), asked;
      }
      combined := Merge(combined, hop.value);
    }
    assert hops[..|referrals|] == hops;
    return Ok(combined), asked;
  }

  /** Every paged exchange behind a referral opens with the other controls and exactly one paging control,
      whose cookie is empty, although the request it was copied from may hold a used one. */
  lemma ReferralsStartAfresh(cfg: Config, urls: Urls, sent: Sent, referral: string, target: Target)
    requires cfg.paged && HopAsked(cfg, urls, sent, referral, target) != []
    ensures HopAsked(cfg, urls, sent, referral, target)[0].controls == sent.others + [WirePaging(cfg.size, "")]
    ensures forall k: nat :: 0 < k < |HopAsked(cfg, urls, sent, referral, target)| ==>
      HopAsked(cfg, urls, sent, referral, target)[k].controls == sent.others + [WirePaging(cfg.size, CookieFor(target.script, k))]
  {
  }

  // ----- the whole search

  ghost function Found(cfg: Config, urls: Urls, late: bool, script: seq<Reply>, targets: nat -> Target): Reply {
    var own := OneSearch(cfg, late, script);
    if own.failure.Some? || own.page.None? || own.page.value.referrals == [] then own
    else if !cfg.Follows() then Reply(None, Some(Referral))
    else
      var referrals := own.page.value.referrals;
      match Chain(Hops(cfg, urls, referrals, targets))
      case Err(e) => Reply(None, Some(e))
      case Ok(followed) =>
        Reply(Some(own.page.value.(entries := own.page.value.entries + followed.entries,
                                   referrals := referrals + followed.referrals)), None)
  }

  method Search(cfg: Config, urls: Urls, conn: Conn, request: SearchRequest, late: bool, targets: nat -> Target)
    returns (r: Reply, ghost asked: seq<seq<Wire>>)
    modifies conn, request`controls
    ensures r == Found(cfg, urls, late, old(conn.script), targets)
    ensures conn.asked == old(conn.asked + Asked(cfg, late, Sending(request), conn.script))
    ensures Exchanges(cfg, urls, old(Sending(request)), PageOf(OneSearch(cfg, late, old(conn.script))).referrals, targets, asked)
  {
    asked := [];
    r := SearchOnce(cfg, conn, request, late);
    if !cfg.paged {
      PrintedStays(request.controls);
    }
    if r.failure.Some? || r.page.None? || r.page.value.referrals == [] {
      return;
    }
    if !cfg.Follows() {
      return Reply(None, Some(Referral)), [];
    }
    var followed;
    followed, asked := FollowReferrals(cfg, urls, request, r.page.value.referrals, targets);
    if followed.Err? {
      return Reply(None, Some(followed.error)), asked;
    }
    r := Reply(Some(r.page.value.(entries := r.page.value.entries + followed.value.entries,
                                  referrals := r.page.value.referrals + followed.value.referrals)), None);
  }

  // ----- what an answer consists of

  ghost predicate AllOk(hops: seq<Answered<Page>>) {
    forall i :: 0 <= i < |hops| ==> hops[i].Ok?
  }

  /** The entries of all hops, in order. */
  ghost function Entries(hops: seq<Answered<Page>>): seq<Entry>
    requires AllOk(hops)
  {
    if hops == [] then [] else Entries(hops[..|hops| - 1]) + hops[|hops| - 1].value.entries
  }

  lemma {:induction false} ChainIsConcatenation(hops: seq<Answered<Page>>)
    requires forall i :: 0 <= i < |hops| && hops[i].Ok? ==> hops[i].value.referrals == []
    ensures Chain(hops).Ok? <==> AllOk(hops)
    ensures AllOk(hops) ==> Chain(hops).value.entries == Entries(hops) && Chain(hops).value.referrals == []
  {
    if hops != [] {
      var front := hops[..|hops| - 1];
      ChainIsConcatenation(front);
      assert AllOk(hops) <==> AllOk(front) && hops[|hops| - 1].Ok?;
    }
  }

  /** A search whose own answer names referrals succeeds exactly when the policy allows following and every
      target is allowlisted, reachable, bound and answers without a referral of its own; the entries are
      then its own followed by each target's, in order. */
  lemma SearchIsOwnThenTargets(cfg: Config, urls: Urls, late: bool, script: seq<Reply>, targets: nat -> Target)
    requires var own := OneSearch(cfg, late, script);
      own.failure.None? && own.page.Some? && own.page.value.referrals != []
    ensures var own := OneSearch(cfg, late, script).page.value;
      var found, hops := Found(cfg, urls, late, script, targets), Hops(cfg, urls, own.referrals, targets);
      && (found.failure.None? <==> cfg.mode == "allowlist" && cfg.reuseServiceBind && AllOk(hops))
      && (found.failure.None? ==>
          && found.page.Some? && found.page.value.referrals == own.referrals
          && found.page.value.entries == own.entries + Entries(hops))
      && (found.failure.Some? ==> found.page.None?)
  {
    var own := OneSearch(cfg, late, script).page.value;
    var hops := Hops(cfg, urls, own.referrals, targets);
    forall i | 0 <= i < |hops| && hops[i].Ok? ensures hops[i].value.referrals == [] {
      HopsHaveNoReferrals(cfg, urls, own.referrals[i], targets(i));
    }
    ChainIsConcatenation(hops);
  }

  // ----- paging cannot be seen in an answer

  /** Two answers with the same entries, referrals and failure. */
  ghost predicate Alike(a: Reply, b: Reply) {
    a.failure == b.failure && a.page.Some? == b.page.Some?
    && PageOf(a).entries == PageOf(b).entries && PageOf(a).referrals == PageOf(b).referrals
  }

  /** One script cuts a list of at most `max` entries into pages, the other sends it whole. */
  ghost predicate SameList(cut: seq<Reply>, whole: seq<Reply>, max: int) {
    && whole != [] && Alike(whole[0], Reply(Some(Whole(cut)), None))
    && Paginates(cut, Whole(cut)) && |Whole(cut).entries| <= max
  }

  ghost predicate SameTarget(cut: Target, whole: Target, max: int) {
    match cut
    case Refused(_) => whole == cut
    case Reached(bind, late, script) => !late && whole.Reached? && whole.bind == bind && SameList(script, whole.script, max)
  }

  lemma OneSearchAlike(cfg: Config, late: bool, cut: seq<Reply>, whole: seq<Reply>)
    requires 0 < cfg.max && SameList(cut, whole, cfg.max)
    ensures Alike(OneSearch(cfg.(paged := true), false, cut), OneSearch(cfg.(paged := false), late, whole))
  {
    PagingRefinesOneSearch(cut, Whole(cut), cfg.max);
  }

  ghost predicate AlikeHops(a: Answered<Page>, b: Answered<Page>) {
    match a
    case Err(_) => b == a
    case Ok(page) => b.Ok? && b.value.entries == page.entries && b.value.referrals == page.referrals
  }

  lemma HopAlike(cfg: Config, urls: Urls, referral: string, cut: Target, whole: Target)
    requires 0 < cfg.max && SameTarget(cut, whole, cfg.max)
    ensures AlikeHops(Hop(cfg.(paged := true), urls, referral, cut), Hop(cfg.(paged := false), urls, referral, whole))
  {
    AllowedIgnoresPaging(cfg, urls, referral);
    if cut.Reached? {
      OneSearchAlike(cfg, whole.late, cut.script, whole.script);
    }
  }

  lemma AllowedIgnoresPaging(cfg: Config, urls: Urls, referral: string)
    ensures Allowed(cfg.(paged := true), urls, referral) == Allowed(cfg.(paged := false), urls, referral)
  {
    var url := urls.parse(referral);
    if url.Some? {
      assert Listed(cfg.(paged := true), urls, url.value.host) == Listed(cfg.(paged := false), urls, url.value.host) by {
        assert forall u :: Usable(cfg.(paged := true), u) == Usable(cfg.(paged := false), u);
      }
    }
  }

  lemma {:induction false} ChainAlike(a: seq<Answered<Page>>, b: seq<Answered<Page>>)
    requires |a| == |b| && forall i :: 0 <= i < |a| ==> AlikeHops(a[i], b[i])
    ensures AlikeHops(Chain(a), Chain(b))
  {
    if a != [] {
      ChainAlike(a[..|a| - 1], b[..|a| - 1]);
      assert AlikeHops(a[|a| - 1], b[|a| - 1]);
    }
  }

  /** With every list within the limit, a search over paging servers gives the entries, referrals and error
      it would give over servers that send each list whole, however the pages are cut. */
  lemma PagingIsInvisible(cfg: Config, urls: Urls, cut: seq<Reply>, whole: seq<Reply>, cuts: nat -> Target, wholes: nat -> Target)
    requires 0 < cfg.max && SameList(cut, whole, cfg.max)
    requires forall i: nat :: i < |Whole(cut).referrals| ==> SameTarget(cuts(i), wholes(i), cfg.max)
    ensures Alike(Found(cfg.(paged := true), urls, false, cut, cuts), Found(cfg.(paged := false), urls, false, whole, wholes))
  {
    OneSearchAlike(cfg, false, cut, whole);
    PagingRefinesOneSearch(cut, Whole(cut), cfg.max);
    var referrals := Whole(cut).referrals;
    var a, b := Hops(cfg.(paged := true), urls, referrals, cuts), Hops(cfg.(paged := false), urls, referrals, wholes);
    forall i | 0 <= i < |referrals| ensures AlikeHops(a[i], b[i]) {
      HopAlike(cfg, urls, referrals[i], cuts(i), wholes(i));
    }
    ChainAlike(a, b);
  }
}
