/**
 Page-token loops (services/changelog.go, services/stop_all_trading.go). The
 server answers the k-th request of a loop as it likes; only the set of page
 tokens it ever names is finite.
 */
module Paging {
  import opened Basics

  /** A page token; the empty one asks for the first page and, as a next token, says there is no further page. */
  datatype Token = Token(text: string)

  const NoToken := Token("")

  datatype Page<T> = Page(items: seq<T>, next: Token)

  datatype Outcome = Done | FetchFailed | RepeatedToken | StoppedByConsumer

  /** One answered request. */
  datatype Fetched<T> = Fetched(token: Token, page: Page<T>)

  type Server<!T> = (nat, Token) -> Option<Page<T>>

  function Items<T>(trail: seq<Fetched<T>>): seq<T> {
    if trail == [] then [] else Items(Init(trail)) + Last(trail).page.items
  }

  /** Every token the server may name. */
  ghost predicate Names<T(!new)>(server: Server<T>, tokens: set<Token>) {
    forall k, t :: server(k, t).Some? && server(k, t).value.next != NoToken ==> server(k, t).value.next in tokens
  }

  ghost predicate Requested<T>(trail: seq<Fetched<T>>, t: Token) {
    exists i :: 0 <= i < |trail| && trail[i].token == t
  }

  /** The token of the next request. */
  function NextToken<T>(start: Token, trail: seq<Fetched<T>>): Token {
    if trail == [] then start else Last(trail).page.next
  }

  /**
   The requests of a loop: from `start`, each with the token the page before named, answered by the server,
   none twice.
   */
  ghost predicate Walk<T(!new)>(server: Server<T>, start: Token, trail: seq<Fetched<T>>) {
    forall i :: 0 <= i < |trail| ==> Follows(server, start, trail[..i], trail[i])
  }

  ghost predicate Follows<T(!new)>(server: Server<T>, start: Token, before: seq<Fetched<T>>, f: Fetched<T>) {
    && f.token == NextToken(start, before) && server(|before|, f.token) == Some(f.page)
    && (before != [] ==> f.token != NoToken)
    && !Requested(before, f.token)
  }

  lemma WalkOn<T(!new)>(server: Server<T>, start: Token, trail: seq<Fetched<T>>, f: Fetched<T>)
    requires Walk(server, start, trail) && Follows(server, start, trail, f)
    ensures Walk(server, start, trail + [f]) && Items(trail + [f]) == Items(trail) + f.page.items
  {
    var more := trail + [f];
    assert Init(more) == trail;
    forall i | 0 <= i < |more| ensures Follows(server, start, more[..i], more[i]) {
      if i < |trail| {
        assert more[..i] == trail[..i];
      } else {
        assert more[..i] == trail;
      }
    }
  }

  /**
   `paginate` for a consumer that breaks off at its `demand`-th item, if it
   does. What it yields is exactly the concatenation of the pages, up to the
   first error, a repeated token or the consumer's break; no token is requested
   twice, so a server with finitely many tokens is asked finitely often.
   */
  method Paginate<T(!new)>(server: Server<T>, start: Token, demand: Option<nat>, ghost tokens: set<Token>)
    returns (yielded: seq<T>, outcome: Outcome, ghost trail: seq<Fetched<T>>)
    requires Names(server, tokens) && (demand.Some? ==> demand.value > 0)
    ensures Walk(server, start, trail) && |trail| <= |tokens| + 1
    ensures outcome.Done? ==> yielded == Items(trail) && trail != [] && NextToken(start, trail) == NoToken
    ensures outcome.FetchFailed? ==> yielded == Items(trail) && server(|trail|, NextToken(start, trail)).None?
    ensures outcome.RepeatedToken? ==>
      && yielded == Items(trail) && trail != [] && NextToken(start, trail) != NoToken
      && Requested(trail, NextToken(start, trail))
    ensures outcome.StoppedByConsumer? ==> demand.Some? && |yielded| == demand.value && yielded <= Items(trail)
    ensures demand.Some? && !outcome.StoppedByConsumer? ==> |yielded| < demand.value
  {
    hide Walk, Items, Requested, Asking, Names;
    yielded, trail := [], [];
    var token, k := start, 0;
    var requested: set<Token> := {};
    ghost var left := tokens + {start};
    AskingFirst(server, start, tokens);
    while true
      invariant Asking(server, start, tokens, trail, token, requested, left) && k == |trail|
      invariant yielded == Items(trail) && (demand.Some? ==> |yielded| < demand.value)
      decreases |left|
    {
      AskingMeans(server, start, tokens, trail, token, requested, left);
      ghost var asked := requested;
      if token != NoToken {
        requested := requested + {token};
      }
      var answer := server(k, token);
      if answer.None? {
        outcome := FetchFailed;
        return;
      }
      var page := answer.value;
      Asked(server, start, tokens, trail, token, asked, left, page);
      trail, left, k := trail + [Fetched(token, page)], left - {token}, k + 1;
      var stopped;
      yielded, stopped := YieldPage(yielded, page.items, demand);
      if stopped {
        outcome := StoppedByConsumer;
        return;
      }
      if page.next == NoToken {
        outcome := Done;
        return;
      }
      if page.next in requested {
        outcome := RepeatedToken;
        return;
      }
      token := page.next;
    }
  }

  /**
   About to request `token`: `left` are the tokens never requested, `requested` those that were, the empty one
   aside.
   */
  ghost predicate Asking<T(!new)>(server: Server<T>, start: Token, tokens: set<Token>, trail: seq<Fetched<T>>,
      token: Token,
                                  requested: set<Token>, left: set<Token>)
  {
    && Names(server, tokens) && Walk(server, start, trail) && token == NextToken(start, trail)
    && (trail != [] ==> token != NoToken)
    && (forall t :: t in left <==> t in tokens + {start} && !Requested(trail, t))
    && (forall t :: t in requested <==> t != NoToken && Requested(trail, t))
    && token in left
    && |trail| + |left| == |tokens + {start}| <= |tokens| + 1
  }

  function Noted(requested: set<Token>, token: Token): set<Token> {
    if token == NoToken then requested else requested + {token}
  }

  lemma AskingFirst<T(!new)>(server: Server<T>, start: Token, tokens: set<Token>)
    requires Names(server, tokens)
    ensures Asking(server, start, tokens, [], start, {}, tokens + {start}) && Items<T>([]) == []
  {
    OneMore(tokens, start);
  }

  lemma AskingMeans<T(!new)>(server: Server<T>, start: Token, tokens: set<Token>, trail: seq<Fetched<T>>, token: Token,
                             requested: set<Token>, left: set<Token>)
    requires Asking(server, start, tokens, trail, token, requested, left)
    ensures Walk(server, start, trail) && |trail| <= |tokens| + 1 && token == NextToken(start, trail)
  {
  }

  lemma OneMore<T>(s: set<T>, x: T)
    ensures |s + {x}| == |s| + if x in s then 0 else 1
  {
    if x in s { assert s + {x} == s; }
  }

  lemma OneLess<T>(s: set<T>, x: T)
    requires x in s
    ensures |s - {x}| == |s| - 1
  {
  }

  lemma Asked<T(!new)>(server: Server<T>, start: Token, tokens: set<Token>, trail: seq<Fetched<T>>, token: Token,
                       requested: set<Token>, left: set<Token>, page: Page<T>)
    requires Asking(server, start, tokens, trail, token, requested, left) && server(|trail|, token) == Some(page)
    ensures var more, noted := trail + [Fetched(token, page)], Noted(requested, token);
      && Walk(server, start, more) && |more| <= |tokens| + 1 && Items(more) == Items(trail) + page.items
      && NextToken(start, more) == page.next && |left - {token}| < |left|
      && (page.next in noted ==> page.next != NoToken && Requested(more, page.next))
      && (page.next != NoToken && page.next !in noted ==>
        Asking(server, start, tokens, more, page.next, noted, left - {token}))
  {
    hide Walk, Items, Requested;
    var f := Fetched(token, page);
    OneLess(left, token);
    WalkOn(server, start, trail, f);
    RequestedMore(trail, f);
    assert Last(trail + [f]) == f;
  }

  /** The items of one page, until the consumer breaks off. */
  method YieldPage<T>(before: seq<T>, items: seq<T>, demand: Option<nat>) returns (yielded: seq<T>, stopped: bool)
    requires demand.Some? ==> |before| < demand.value
    ensures !stopped ==> yielded == before + items && (demand.Some? ==> |yielded| < demand.value)
    ensures stopped ==> demand.Some? && |yielded| == demand.value && yielded <= before + items
  {
    yielded, stopped := before, false;
    for i := 0 to |items|
      invariant yielded == before + items[..i] && (demand.Some? ==> |yielded| < demand.value)
    {
      yielded := yielded + [items[i]];
      assert items[..i + 1] == items[..i] + [items[i]];
      if demand == Some(|yielded|) {
        assert before + items == before + items[..i + 1] + items[i + 1..];
        return yielded, true;
      }
    }
  }

  lemma RequestedMore<T>(trail: seq<Fetched<T>>, f: Fetched<T>)
    ensures forall t :: Requested(trail + [f], t) <==> Requested(trail, t) || t == f.token
  {
    forall t ensures Requested(trail + [f], t) <==> Requested(trail, t) || t == f.token {
      var more := trail + [f];
      if Requested(trail, t) {
        var i :| 0 <= i < |trail| && trail[i].token == t;
        assert more[i].token == t;
      }
      assert more[|trail|].token == f.token;
    }
  }

  /** `collect`: every item of every page, or the error. */
  method Collect<T(!new)>(server: Server<T>, start: Token, ghost tokens: set<Token>)
    returns (r: Result<seq<T>, Outcome>, ghost trail: seq<Fetched<T>>)
    requires Names(server, tokens)
    ensures Walk(server, start, trail)
    ensures r.Ok? ==> r.value == Items(trail) && trail != [] && NextToken(start, trail) == NoToken
    ensures r.Err? ==>
      || (r.error.FetchFailed? && server(|trail|, NextToken(start, trail)).None?)
      || (r.error.RepeatedToken? && trail != [] && NextToken(start, trail) != NoToken
        && Requested(trail, NextToken(start, trail)))
  {
    var yielded, outcome;
    yielded, outcome, trail := Paginate(server, start, None, tokens);
    r := if outcome.Done? then Ok(yielded) else Err(outcome);
  }

  // ---------- StopAllTrading ----------

  type TriggerId = string

  datatype CancelReply = Canceled | CancelFailed | ContextDone

  datatype Stop = ListFailed | ListRepeats | ContextCanceled | CancelAllFailed | Finished(allCanceled: bool)

  /** What was asked of the server, in order. */
  datatype Op = ListOp(page: Token) | CancelOp(id: TriggerId, reply: CancelReply) | CancelAllOp(ok: bool)

  /** The ids of `all`, each where it first stands. */
  function Distinct(all: seq<TriggerId>): seq<TriggerId> {
    if all == [] then []
    else
      var front := Distinct(Init(all));
      if Last(all) in front then front else front + [Last(all)]
  }

  lemma {:induction false} DistinctIds(all: seq<TriggerId>)
    ensures forall id :: id in Distinct(all) <==> id in all
    ensures forall i, j :: 0 <= i < j < |Distinct(all)| ==> Distinct(all)[i] != Distinct(all)[j]
  {
    if all != [] {
      DistinctIds(Init(all));
      assert all == Init(all) + [Last(all)];
    }
  }

  /** The ids whose cancel was answered with `reply`. */
  function Answered(ids: seq<TriggerId>, replies: seq<CancelReply>, reply: CancelReply): seq<TriggerId>
    requires |replies| == |ids|
  {
    if ids == [] then []
    else
      var front := Answered(Init(ids), Init(replies), reply);
      if Last(replies) == reply then front + [Last(ids)] else front
  }

  function CancelOps(ids: seq<TriggerId>, replies: seq<CancelReply>): (ops: seq<Op>)
    requires |replies| == |ids|
    ensures |ops| == |ids|
  {
    seq(|ids|, i requires 0 <= i < |ids| => CancelOp(ids[i], replies[i]))
  }

  function ListOps(trail: seq<Fetched<TriggerId>>): (ops: seq<Op>)
    ensures |ops| == |trail|
  {
    seq(|trail|, i requires 0 <= i < |trail| => ListOp(trail[i].token))
  }

  /** The listing, complete before anything is canceled: `ListTriggers` page by page. */
  method ListTriggers(server: Server<TriggerId>, ghost tokens: set<Token>)
    returns (ids: seq<TriggerId>, stop: Option<Stop>, ghost trail: seq<Fetched<TriggerId>>)
    requires Names(server, tokens)
    ensures Walk(server, NoToken, trail) && |trail| <= |tokens| + 1
    ensures ids == Distinct(Items(trail))
    ensures stop.None? ==> trail != [] && NextToken(NoToken, trail) == NoToken
    ensures stop.Some? ==>
      || (stop.value.ListFailed? && server(|trail|, NextToken(NoToken, trail)).None?)
      || (stop.value.ListRepeats? && Requested(trail, NextToken(NoToken, trail))
        && NextToken(NoToken, trail) != NoToken)
  {
    assert Distinct([]) == [];
    hide Walk, Distinct, Items, Requested, Asking, Names;
    ids, trail, stop := [], [], None;
    var pageToken, k := NoToken, 0;
    var sent: set<Token> := {};
    ghost var asked: set<Token>, left := {}, tokens + {NoToken};
    AskingFirst(server, NoToken, tokens);
    while true
      invariant Asking(server, NoToken, tokens, trail, pageToken, asked, left) && k == |trail|
      invariant sent == Noted(asked, pageToken)
      invariant ids == Distinct(Items(trail)) && stop.None?
      decreases |left|
    {
      AskingMeans(server, NoToken, tokens, trail, pageToken, asked, left);
      var answer := server(k, pageToken);
      if answer.None? {
        stop := Some(ListFailed);
        return;
      }
      var page := answer.value;
      Asked(server, NoToken, tokens, trail, pageToken, asked, left, page);
      ids := AddDistinct(Items(trail), ids, page.items);
      trail, left, k := trail + [Fetched(pageToken, page)], left - {pageToken}, k + 1;
      if page.next == NoToken {
        return;
      }
      if page.next in sent {
        stop := Some(ListRepeats);
        return;
      }
      asked, sent, pageToken := sent, sent + {page.next}, page.next;
    }
  }

  method AddDistinct(ghost before: seq<TriggerId>, ids: seq<TriggerId>, more: seq<TriggerId>)
      returns (r: seq<TriggerId>)
    requires ids == Distinct(before)
    ensures r == Distinct(before + more)
  {
    r := ids;
    assert before + more[..0] == before;
    for i := 0 to |more|
      invariant r == Distinct(before + more[..i])
    {
      assert Init(before + more[..i + 1]) == before + more[..i] && Last(before + more[..i + 1]) == more[i];
      if more[i] !in r {
        r := r + [more[i]];
      }
    }
    assert more[..|more|] == more;
  }

  /**
   Lists every live trigger, cancels each, then cancels all orders. Nothing is
   canceled unless the listing is complete; with a live context every distinct
   listed trigger is attempted exactly once, in listing order, and lands in
   exactly one of `canceled` and `failed`; the cancel-all comes last, once.
   */
  method StopAllTrading(server: Server<TriggerId>, cancel: (nat, TriggerId) -> CancelReply, cancelAll: nat -> bool,
      ghost tokens: set<Token>)
    returns (canceled: seq<TriggerId>, failed: seq<TriggerId>, stop: Stop,
             ghost trail: seq<Fetched<TriggerId>>, ghost replies: seq<CancelReply>, ghost log: seq<Op>)
    requires Names(server, tokens)
    ensures Walk(server, NoToken, trail)
    ensures stop.ListFailed? || stop.ListRepeats? ==>
      canceled == [] && failed == [] && replies == [] && log == ListOps(trail)
    ensures !stop.ListFailed? && !stop.ListRepeats? ==> trail != [] && NextToken(NoToken, trail) == NoToken
    ensures |replies| <= |Distinct(Items(trail))|
    ensures var ids := Distinct(Items(trail))[..|replies|];
      && (forall i :: 0 <= i < |ids| ==> replies[i] == cancel(i, ids[i]))
      && canceled == Answered(ids, replies, Canceled) && failed == Answered(ids, replies, CancelFailed)
      && (stop.ContextCanceled? ==>
        replies != [] && Last(replies) == ContextDone && log == ListOps(trail) + CancelOps(ids, replies))
      && (stop.CancelAllFailed? || stop.Finished? ==>
            && |replies| == |Distinct(Items(trail))| && ContextDone !in replies
            && log == ListOps(trail) + CancelOps(ids, replies) + [CancelAllOp(stop.Finished?)])
    ensures stop.Finished? ==> (stop.allCanceled <==> failed == [])
    ensures stop.CancelAllFailed? || stop.Finished? ==>
      && multiset(canceled) + multiset(failed) == multiset(Distinct(Items(trail)))
      && (forall id :: id in Items(trail) ==> (id in canceled <==> id !in failed))
  {
    assert Answered([], [], Canceled) == [] && Answered([], [], CancelFailed) == [];
    hide Walk, Items, Distinct, Answered;
    canceled, failed, replies := [], [], [];
    var ids, listing, aborted;
    ids, listing, trail := ListTriggers(server, tokens);
    log := ListOps(trail);
    if listing.Some? {
      stop := listing.value;
      return;
    }
    canceled, failed, aborted, replies := CancelEach(ids, cancel);
    log := log + CancelOps(ids[..|replies|], replies);
    if aborted {
      stop := ContextCanceled;
      return;
    }
    DistinctIds(Items(trail));
    ExactlyOneList(ids, replies);
    assert ids[..|replies|] == ids;
    var ok := cancelAll(|ids|);
    log := log + [CancelAllOp(ok)];
    stop := if ok then Finished(failed == []) else CancelAllFailed;
  }

  method CancelEach(ids: seq<TriggerId>, cancel: (nat, TriggerId) -> CancelReply)
    returns (canceled: seq<TriggerId>, failed: seq<TriggerId>, aborted: bool, ghost replies: seq<CancelReply>)
    ensures |replies| <= |ids| && forall i :: 0 <= i < |replies| ==> replies[i] == cancel(i, ids[i])
    ensures canceled == Answered(ids[..|replies|], replies, Canceled)
      && failed == Answered(ids[..|replies|], replies, CancelFailed)
    ensures aborted ==> replies != [] && Last(replies) == ContextDone
    ensures !aborted ==> |replies| == |ids| && ContextDone !in replies
  {
    canceled, failed, aborted, replies := [], [], false, [];
    for i := 0 to |ids|
      invariant |replies| == i && ContextDone !in replies && !aborted
      invariant forall j :: 0 <= j < i ==> replies[j] == cancel(j, ids[j])
      invariant canceled == Answered(ids[..i], replies, Canceled) && failed == Answered(ids[..i], replies, CancelFailed)
    {
      var reply := cancel(i, ids[i]);
      OneMoreCancel(ids, i, replies, reply);
      replies := replies + [reply];
      if reply.ContextDone? {
        aborted := true;
        return;
      }
      if reply.CancelFailed? {
        failed := failed + [ids[i]];
        continue;
      }
      canceled := canceled + [ids[i]];
    }
  }

  lemma OneMoreCancel(ids: seq<TriggerId>, i: nat, replies: seq<CancelReply>, reply: CancelReply)
    requires i < |ids| && |replies| == i
    ensures forall r :: r != reply ==> Answered(ids[..i + 1], replies + [reply], r) == Answered(ids[..i], replies, r)
    ensures Answered(ids[..i + 1], replies + [reply], reply) == Answered(ids[..i], replies, reply) + [ids[i]]
  {
    assert Init(ids[..i + 1]) == ids[..i] && Init(replies + [reply]) == replies;
  }

  lemma OneListMore(ids: seq<TriggerId>, c: seq<TriggerId>, f: seq<TriggerId>, id: TriggerId)
    requires id !in ids && multiset(c) + multiset(f) == multiset(ids)
    requires forall x :: x in ids ==> (x in c <==> x !in f)
    ensures multiset(c + [id]) + multiset(f) == multiset(ids + [id]) == multiset(c) + multiset(f + [id])
    ensures forall x :: x in ids + [id] ==> (x in c + [id] <==> x !in f) && (x in c <==> x !in f + [id])
  {
    assert id !in multiset(c) + multiset(f);
    assert id !in c && id !in f;
  }

  /** With a live context each attempted id is in exactly one of the two lists, once. */
  lemma {:induction false} ExactlyOneList(ids: seq<TriggerId>, replies: seq<CancelReply>)
    requires |replies| == |ids| && ContextDone !in replies
    requires forall i, j :: 0 <= i < j < |ids| ==> ids[i] != ids[j]
    ensures var canceled, failed := Answered(ids, replies, Canceled), Answered(ids, replies, CancelFailed);
      && multiset(canceled) + multiset(failed) == multiset(ids)
      && (forall id :: id in ids ==> (id in canceled <==> id !in failed))
  {
    if ids != [] {
      var front := Init(ids);
      assert replies == Init(replies) + [Last(replies)];
      ExactlyOneList(front, Init(replies));
      assert Last(ids) !in front;
      var c, f := Answered(front, Init(replies), Canceled), Answered(front, Init(replies), CancelFailed);
      hide Answered;
      OneListMore(front, c, f, Last(ids));
    }
  }
}
