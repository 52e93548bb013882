/**
 The managed order book (services/orderbook.go): the closures that install
 snapshots, merge deltas, render views, and pace requests for a snapshot that
 came back unavailable.
 */
module BookFeed {
  import opened Basics
  import opened Numbers
  import opened LocalBook
  import opened BookView

  /** Nanoseconds: a second, doubling up to eight. */
  const INITIAL_DELAY: int := 1_000_000_000
  const MAX_DELAY: int := 8_000_000_000

  /** A paced request: when it is due after, and the generation it was made in. */
  datatype Recheck = Recheck(delay: int, generation: nat)

  datatype Snapshot = Snapshot(bids: seq<Option<PriceQty>>, asks: seq<Option<PriceQty>>, bookSeq: int, available: bool)

  /** What the consumer is handed: a rendered book, and whether its levels are known to be complete. */
  datatype View = View(book: BookData, available: bool)

  /** The book after the deltas, one by one. */
  function MergeAll(book: Book, deltas: seq<Delta>): Book {
    if deltas == [] then book else Merge(MergeAll(book, Init(deltas)), Last(deltas)).0
  }

  /** One more view was handed out: of this book, at this depth and bucket size. */
  ghost predicate Handed(before: seq<View>, after: seq<View>, depth: int, book: Book, available: bool,
      bucketTicks: int) {
    && after != [] && after[..|after| - 1] == before && Last(after).available == available
    && Shows(Last(after).book, depth, book.seqNo, book.bids, book.asks, bucketTicks)
  }

  /** The sequence numbers consumers are to see while the deltas are merged: one for each that asks for no snapshot. */
  function SeqsShown(book: Book, deltas: seq<Delta>): seq<Int64> {
    if deltas == [] then []
    else
      var (merged, refresh) := Merge(MergeAll(book, Init(deltas)), Last(deltas));
      SeqsShown(book, Init(deltas)) + if refresh then [] else [merged.seqNo]
  }

  lemma MergedMore(book: Book, deltas: seq<Delta>, i: nat)
    requires i < |deltas|
    ensures var mid := MergeAll(book, deltas[..i]);
      var (merged, refresh) := Merge(mid, deltas[i]);
      && MergeAll(book, deltas[..i + 1]) == merged
      && SeqsShown(book, deltas[..i + 1]) == SeqsShown(book, deltas[..i]) + if refresh then [] else [merged.seqNo]
  {
    hide Merge;
    assert Init(deltas[..i + 1]) == deltas[..i];
  }

  lemma HandedNone(views: seq<View>)
    ensures HandedSeqs(views, views, [])
  {
  }

  /** One more delta is merged, and its view handed out unless it asks for a snapshot. */
  lemma HandedMore(shown: seq<View>, before: seq<View>, after: seq<View>, book: Book, deltas: seq<Delta>, i: nat,
      depth: int,
                   available: bool, bucketTicks: int)
    requires i < |deltas| && HandedSeqs(shown, before, SeqsShown(book, deltas[..i]))
    requires var (merged, refresh) := Merge(MergeAll(book, deltas[..i]), deltas[i]);
      if refresh then after == before else Handed(before, after, depth, merged, available, bucketTicks)
    ensures HandedSeqs(shown, after, SeqsShown(book, deltas[..i + 1]))
  {
    MergedMore(book, deltas, i);
    var (merged, refresh) := Merge(MergeAll(book, deltas[..i]), deltas[i]);
    hide *;
    var seqs := SeqsShown(book, deltas[..i]);
    if refresh { assert seqs + [] == seqs; }
      else { HandedOne(shown, before, after, seqs, depth, merged, available, bucketTicks); }
  }

  lemma HandedOne(shown: seq<View>, before: seq<View>, after: seq<View>, seqs: seq<Int64>, depth: int, book: Book,
                  available: bool, bucketTicks: int)
    requires HandedSeqs(shown, before, seqs) && Handed(before, after, depth, book, available, bucketTicks)
    ensures HandedSeqs(shown, after, seqs + [book.seqNo])
  {
    hide Viewed, Best;
    assert after == before + [Last(after)];
    forall i | |shown| <= i < |after| ensures after[i].book.bookSeq == (seqs + [book.seqNo])[i - |shown|] {
      if i < |before| { assert after[i] == before[i]; }
    }
  }

  /** The views handed out since `before` show these sequence numbers, one each. */
  ghost predicate HandedSeqs(before: seq<View>, after: seq<View>, seqs: seq<Int64>) {
    && |after| == |before| + |seqs| && after[..|before|] == before
    && (forall i :: |before| <= i < |after| ==> after[i].book.bookSeq == seqs[i - |before|])
  }

  /**
   How far `MergeBuffered` got after `i` of the deltas: from `book` to `now`, with `merged` of them taken, unless
   the feed was closed (`was`) before; `renders` says whether `now` can be rendered.
   */
  ghost predicate MergedSoFar(book: Book, deltas: seq<Delta>, i: nat, shown: seq<View>, was: bool, merged: nat,
      now: Book,
                           views: seq<View>, closed: bool, renders: bool)
  {
    && merged <= i <= |deltas| && now == MergeAll(book, deltas[..merged])
    && (!closed ==> merged == i && HandedSeqs(shown, views, SeqsShown(book, deltas[..i])))
    && (was ==> closed && merged == 0 && views == shown)
    && (closed && !was ==>
          merged > 0 && !renders && HandedSeqs(shown, views, SeqsShown(book, deltas[..merged - 1])))
    && (i == 0 ==> views == shown && closed == was)
  }

  lemma SoFarNone(book: Book, deltas: seq<Delta>, shown: seq<View>, was: bool, renders: bool)
    ensures MergedSoFar(book, deltas, 0, shown, was, 0, book, shown, was, renders)
  {
    hide Merge;
    HandedNone(shown);
  }

  lemma SoFarDone(book: Book, deltas: seq<Delta>, shown: seq<View>, was: bool, merged: nat, now: Book, views: seq<View>,
                     closed: bool, renders: bool)
    requires MergedSoFar(book, deltas, |deltas|, shown, was, merged, now, views, closed, renders)
    ensures merged <= |deltas| && now == MergeAll(book, deltas[..merged])
    ensures (!closed ==> merged == |deltas|) && (was ==> closed && merged == 0)
    ensures !closed ==> HandedSeqs(shown, views, SeqsShown(book, deltas))
    ensures closed && !was ==>
      merged > 0 && HandedSeqs(shown, views, SeqsShown(book, deltas[..merged - 1])) && !renders
    ensures deltas == [] || was ==> views == shown
  {
    hide MergeAll, SeqsShown, HandedSeqs;
    assert deltas[..|deltas|] == deltas;
  }

  lemma SoFarMore(book: Book, deltas: seq<Delta>, i: nat, shown: seq<View>, was: bool, merged: nat, now: Book,
                     views: seq<View>, closed: bool, renders: bool, now': Book, views': seq<View>, closed': bool,
                     renders': bool, depth: int, available: bool, bucketTicks: int)
    returns (merged': nat)
    requires i < |deltas| && MergedSoFar(book, deltas, i, shown, was, merged, now, views, closed, renders)
    requires closed ==> closed' && now' == now && views' == views && renders' == renders
    requires !closed ==>
      var (after, refresh) := Merge(now, deltas[i]);
      && now' == after
      && if refresh then !closed' && views' == views
         else (closed' <==> !renders') && if closed' then views' == views
           else Handed(views, views', depth, after, available, bucketTicks)
    ensures MergedSoFar(book, deltas, i + 1, shown, was, merged', now', views', closed', renders')
  {
    hide MergeAll, SeqsShown, HandedSeqs, Merge, Handed;
    merged' := if closed then merged else i + 1;
    if !closed {
      MergedMore(book, deltas, i);
      if !closed' {
        HandedMore(shown, views, views', book, deltas, i, depth, available, bucketTicks);
      }
    }
  }

  datatype FeedError = BadLevels(error: BookError) | Unrendered(error: BookError)

  class BookFeed {
    const depth: Int64
    var bids: BookSide
    var asks: BookSide
    var currentBookSeq: Int64
    var bookAvailable: bool
    var bucketTicks: Int64
    var closed: bool
    var lastViewUnavailable: bool
    var recheckPending: bool
    var recheckDelay: int
    var recheckGeneration: nat
    /** Views handed to the consumer, and snapshot refreshes asked of the stream. */
    var views: seq<View>
    var refreshes: nat
    /** Paced requests whose timer is still running. */
    ghost var timers: multiset<Recheck>

    ghost predicate Valid()
      reads this, bids, asks
    {
      bids != asks && Paced(recheckPending, recheckDelay, recheckGeneration, timers)
    }

    ghost function Contents(): Book
      reads this, bids, asks
    {
      Book(bids.levels, asks.levels, currentBookSeq)
    }

    constructor (depth: Int64)
      ensures Valid() && Contents() == Replay([]) && !closed && fresh(bids) && fresh(asks)
    {
      this.depth := depth;
      bids := new BookSide(map[]);
      asks := new BookSide(map[]);
      currentBookSeq, bookAvailable, bucketTicks, closed := 0, false, 0, false;
      lastViewUnavailable, recheckPending, recheckDelay, recheckGeneration := false, false, INITIAL_DELAY, 0;
      views, refreshes, timers := [], 0, multiset{};
      new;
    }

    /** Renders the book; a book that cannot be rendered fails the subscription. */
    method Emit()
      requires Valid()
      modifies this`views, this`closed, this`lastViewUnavailable
      ensures Valid() && Contents() == old(Contents())
      ensures old(closed) ==> closed && views == old(views)
      ensures !old(closed) ==>
        && lastViewUnavailable == !bookAvailable
        && (closed <==> !Renderable(depth, bids.levels, asks.levels, bucketTicks))
        && (closed ==> views == old(views))
        && (!closed ==> Handed(old(views), views, depth, Contents(), bookAvailable, bucketTicks))
    {
      hide Paced, Renderable, Shows;
      if closed {
        return;
      }
      var data := BuildOrderbookData(depth, currentBookSeq, bids.levels, asks.levels, bucketTicks);
      lastViewUnavailable := !bookAvailable;
      if data.Err? {
        closed := true;
        return;
      }
      views := views + [View(data.value, bookAvailable)];
    }

    /** Merges one delta; `ghost log` is whatever the server published and will publish. */
    method HandleDelta(delta: Delta, ghost log: ServerLog)
      requires Valid() && MirrorsBook(Contents(), log) && Honest(delta, log)
      modifies this`views, this`closed, this`lastViewUnavailable, this`currentBookSeq, this`refreshes, bids, asks
      ensures Valid() && MirrorsBook(Contents(), log)
      ensures old(closed) ==>
        closed && Contents() == old(Contents()) && views == old(views) && refreshes == old(refreshes)
      ensures !old(closed) ==>
        && Contents() == Merge(old(Contents()), delta).0
        && refreshes == old(refreshes) + (if Merge(old(Contents()), delta).1 then 1 else 0)
        && (Merge(old(Contents()), delta).1 ==> !closed && views == old(views))
        && (!Merge(old(Contents()), delta).1 ==>
              && (closed <==> !Renderable(depth, bids.levels, asks.levels, bucketTicks))
              && (closed ==> views == old(views))
              && (!closed ==> Handed(old(views), views, depth, Contents(), bookAvailable, bucketTicks)))
    {
      hide Paced, Renderable, Shows, MirrorsBook, Merge, Honest;
      if closed {
        return;
      }
      MergeRefines(Contents(), delta, log);
      var newSeq, needsRefresh := ApplyDelta(bids, asks, currentBookSeq, delta);
      currentBookSeq := newSeq;
      if needsRefresh {
        refreshes := refreshes + 1;
        return;
      }
      Emit();
    }

    /** A fetched snapshot replaces both sides together, or nothing. */
    method InstallSnapshot(snapshot: Snapshot, ghost log: ServerLog) returns (r: Result<BookData, FeedError>)
      requires Valid() && SoundLog(log) && MirrorsBook(Contents(), log)
      requires HonestEvent(SnapshotEvent(snapshot.bids, snapshot.asks, snapshot.bookSeq), log)
      modifies this`bids, this`asks, this`currentBookSeq, this`bookAvailable
      ensures Valid() && MirrorsBook(Contents(), log)
      ensures Contents() == AfterEvent(old(Contents()), SnapshotEvent(snapshot.bids, snapshot.asks, snapshot.bookSeq))
      ensures (r.Err? && r.error.BadLevels?) <==> !(Loadable(snapshot.bids) && Loadable(snapshot.asks))
      ensures bookAvailable == if r.Err? && r.error.BadLevels? then old(bookAvailable) else snapshot.available
      ensures r.Ok? <==>
        && Loadable(snapshot.bids) && Loadable(snapshot.asks)
        && Renderable(depth, bids.levels, asks.levels, bucketTicks)
      ensures r.Ok? ==> Shows(r.value, depth, currentBookSeq, bids.levels, asks.levels, bucketTicks)
    {
      hide Paced, Renderable, Shows, SoundLog, MirrorsBook, HonestEvent;
      SnapshotRefines(Contents(), snapshot.bids, snapshot.asks, snapshot.bookSeq, log);
      var nextBids := LevelsFromProtoLevels(snapshot.bids);
      if nextBids.Err? {
        return Err(BadLevels(nextBids.error));
      }
      var nextAsks := LevelsFromProtoLevels(snapshot.asks);
      if nextAsks.Err? {
        return Err(BadLevels(nextAsks.error));
      }
      bids := new BookSide(nextBids.value);
      asks := new BookSide(nextAsks.value);
      currentBookSeq := Wrap64(snapshot.bookSeq);
      bookAvailable := snapshot.available;
      var data := BuildOrderbookData(depth, currentBookSeq, bids.levels, asks.levels, bucketTicks);
      r := if data.Ok? then Ok(data.value) else Err(Unrendered(data.error));
    }

    /** Merges the buffered deltas in order, up to one that leaves a book which cannot be rendered. */
    method MergeBuffered(buffered: seq<Delta>, ghost log: ServerLog) returns (ghost merged: nat)
      requires Valid() && MirrorsBook(Contents(), log) && forall i :: 0 <= i < |buffered| ==> Honest(buffered[i], log)
      modifies this`views, this`closed, this`lastViewUnavailable, this`currentBookSeq, this`refreshes, bids, asks
      ensures Valid() && MirrorsBook(Contents(), log)
      ensures merged <= |buffered| && Contents() == MergeAll(old(Contents()), buffered[..merged])
      ensures (!closed ==> merged == |buffered|) && (old(closed) ==> closed && merged == 0)
      ensures !closed ==> HandedSeqs(old(views), views, SeqsShown(old(Contents()), buffered))
      ensures closed && !old(closed) ==>
        && merged > 0 && HandedSeqs(old(views), views, SeqsShown(old(Contents()), buffered[..merged - 1]))
        && !Renderable(depth, bids.levels, asks.levels, bucketTicks)
      ensures buffered == [] || old(closed) ==> views == old(views)
      ensures buffered == [] ==> lastViewUnavailable == old(lastViewUnavailable)
    {
      ghost var book, shown, was := Contents(), views, closed;
      SoFarNone(book, buffered, shown, was, Renderable(depth, bids.levels, asks.levels, bucketTicks));
      hide *;
      merged := 0;
      for i := 0 to |buffered|
        invariant Valid() && MirrorsBook(Contents(), log)
        invariant MergedSoFar(book, buffered, i, shown, was, merged, Contents(), views, closed,
                           Renderable(depth, bids.levels, asks.levels, bucketTicks))
        invariant i == 0 ==> lastViewUnavailable == old(lastViewUnavailable)
      {
        ghost var now, before, over := Contents(), views, closed;
        ghost var could := Renderable(depth, bids.levels, asks.levels, bucketTicks);
        HandleDelta(buffered[i], log);
        merged := SoFarMore(book, buffered, i, shown, was, merged, now, before, over, could, Contents(), views, closed,
                               Renderable(depth, bids.levels, asks.levels, bucketTicks), depth, bookAvailable,
                                 bucketTicks);
      }
      SoFarDone(book, buffered, shown, was, merged, Contents(), views, closed,
                   Renderable(depth, bids.levels, asks.levels, bucketTicks));
    }

    /**
     What follows a snapshot: the deltas buffered meanwhile, a view, a paced request while the book is
     unavailable.
     */
    method ApplySnapshot(buffered: seq<Delta>, ghost log: ServerLog) returns (ghost merged: nat)
      requires Valid() && MirrorsBook(Contents(), log) && forall i :: 0 <= i < |buffered| ==> Honest(buffered[i], log)
      modifies this, bids, asks
      ensures Valid() && MirrorsBook(Contents(), log)
      ensures bids == old(bids) && asks == old(asks) && bookAvailable == old(bookAvailable)
      ensures merged <= |buffered| && Contents() == MergeAll(old(Contents()), buffered[..merged])
      ensures (!closed ==> merged == |buffered|) && (old(closed) ==> closed && merged == 0)
      ensures old(closed) ==> views == old(views)
      ensures closed && !old(closed) ==> !Renderable(depth, bids.levels, asks.levels, bucketTicks)
      ensures !closed ==>
        var repeated := !bookAvailable && old(lastViewUnavailable) && buffered == [];
        var seqs := SeqsShown(old(Contents()), buffered);
        var n := |old(views)| + |seqs|;
        && n <= |views| && HandedSeqs(old(views), views[..n], seqs)
        && if repeated then n == |views|
           else Handed(views[..n], views, depth, Contents(), bookAvailable, bucketTicks)
      ensures bookAvailable ==> !recheckPending && recheckDelay == INITIAL_DELAY
      ensures !bookAvailable ==> recheckPending
    {
      hide MirrorsBook, MergeAll, Honest, Paced, Renderable, Shows, SeqsShown;
      merged := MergeBuffered(buffered, log);
      ghost var shown := views;
      var repeated := !bookAvailable && lastViewUnavailable && buffered == [];
      if !repeated {
        Emit();
      }
      assert !closed ==> views[..|shown|] == shown;
      RecheckUnavailableSnapshot(bookAvailable);
    }

    /** Asks for the snapshot again later, with a delay that doubles, unless it is available or already asked for. */
    method RecheckUnavailableSnapshot(available: bool)
      requires Valid()
      modifies this`recheckDelay, this`recheckPending, this`recheckGeneration, this`timers
      ensures Valid() && recheckPending == !available
      ensures available ==>
        recheckDelay == INITIAL_DELAY && recheckGeneration == old(recheckGeneration) + 1 && timers == old(timers)
      ensures !available && old(recheckPending) ==> timers == old(timers) && recheckDelay == old(recheckDelay)
      ensures !available && !old(recheckPending) ==>
        && timers == old(timers) + multiset{Recheck(old(recheckDelay), recheckGeneration)}
        && recheckDelay == Doubled(old(recheckDelay))
    {
      if available {
        Superseded(recheckPending, recheckDelay, recheckGeneration, timers);
        recheckDelay := INITIAL_DELAY;
        recheckPending := false;
        recheckGeneration := recheckGeneration + 1;
        return;
      }
      if recheckPending {
        return;
      }
      Scheduled(recheckDelay, recheckGeneration, timers);
      recheckPending := true;
      var delay := recheckDelay;
      recheckDelay := Doubled(recheckDelay);
      timers := timers + multiset{Recheck(delay, recheckGeneration)};
    }

    /** A paced request comes due: heeded exactly when no available snapshot came in between. */
    method RecheckFired(timer: Recheck)
      requires Valid() && timer in timers
      modifies this`recheckPending, this`refreshes, this`timers
      ensures Valid() && timers == old(timers) - multiset{timer}
      ensures timer.generation == recheckGeneration ==>
        old(recheckPending) && !recheckPending && refreshes == old(refreshes) + 1
      ensures timer.generation != recheckGeneration ==>
        recheckPending == old(recheckPending) && refreshes == old(refreshes)
    {
      OneLessHeeded(timers, timer, recheckGeneration);
      timers := timers - multiset{timer};
      if timer.generation != recheckGeneration {
        return;
      }
      recheckPending := false;
      refreshes := refreshes + 1;
    }

    method SetBucket(ticks: Int64)
      requires Valid()
      modifies this`bucketTicks
      ensures Valid() && Contents() == old(Contents()) && bucketTicks == ticks
    {
      bucketTicks := ticks;
    }
  }

  lemma SnapshotRefines(book: Book, bids: seq<Option<PriceQty>>, asks: seq<Option<PriceQty>>, bookSeq: int,
      log: ServerLog)
    requires SoundLog(log) && MirrorsBook(book, log) && HonestEvent(SnapshotEvent(bids, asks, bookSeq), log)
    ensures MirrorsBook(AfterEvent(book, SnapshotEvent(bids, asks, bookSeq)), log)
  {
    if Loadable(bids) && Loadable(asks) {
      LoadedPositive(bids);
      LoadedPositive(asks);
    }
  }

  // ---------- Pacing ----------

  predicate Delay(d: int) {
    d == INITIAL_DELAY || d == 2 * INITIAL_DELAY || d == 4 * INITIAL_DELAY || d == MAX_DELAY
  }

  function Doubled(d: int): int {
    if d * 2 < MAX_DELAY then d * 2 else MAX_DELAY
  }

  /** Exactly one running timer will be heeded while a request is pending, and none otherwise. */
  ghost predicate Paced(pending: bool, delay: int, generation: nat, timers: multiset<Recheck>) {
    && Delay(delay)
    && (forall t :: t in timers ==> t.generation <= generation && Delay(t.delay))
    && Heeded(timers, generation) == (if pending then 1 else 0)
  }

  lemma Superseded(pending: bool, delay: int, generation: nat, timers: multiset<Recheck>)
    requires Paced(pending, delay, generation, timers)
    ensures Paced(false, INITIAL_DELAY, generation + 1, timers)
  {
    NoneHeeded(timers, generation + 1);
  }

  lemma Scheduled(delay: int, generation: nat, timers: multiset<Recheck>)
    requires Paced(false, delay, generation, timers)
    ensures Paced(true, Doubled(delay), generation, timers + multiset{Recheck(delay, generation)})
  {
    OneMoreHeeded(timers, Recheck(delay, generation), generation);
  }

  /** Timers of generation `g`. */
  ghost function Heeded(timers: multiset<Recheck>, g: nat): nat
    decreases |timers|
  {
    if timers == multiset{} then 0
    else
      var t :| t in timers;
      (if t.generation == g then 1 else 0) + Heeded(timers - multiset{t}, g)
  }

  lemma {:induction false} OneLessHeeded(timers: multiset<Recheck>, t: Recheck, g: nat)
    requires t in timers
    ensures Heeded(timers, g) == (if t.generation == g then 1 else 0) + Heeded(timers - multiset{t}, g)
    decreases |timers|
  {
    var u :| u in timers && Heeded(timers, g) == (if u.generation == g then 1 else 0) + Heeded(timers - multiset{u}, g);
    if u != t {
      OneLessHeeded(timers - multiset{u}, t, g);
      OneLessHeeded(timers - multiset{t}, u, g);
      assert timers - multiset{u} - multiset{t} == timers - multiset{t} - multiset{u};
    }
  }

  lemma OneMoreHeeded(timers: multiset<Recheck>, t: Recheck, g: nat)
    ensures Heeded(timers + multiset{t}, g) == (if t.generation == g then 1 else 0) + Heeded(timers, g)
  {
    OneLessHeeded(timers + multiset{t}, t, g);
    assert timers + multiset{t} - multiset{t} == timers;
  }

  lemma {:induction false} NoneHeeded(timers: multiset<Recheck>, g: nat)
    requires forall t :: t in timers ==> t.generation < g
    ensures Heeded(timers, g) == 0
    decreases |timers|
  {
    if timers != multiset{} {
      var t :| t in timers;
      OneLessHeeded(timers, t, g);
      NoneHeeded(timers - multiset{t}, g);
    }
  }
}
