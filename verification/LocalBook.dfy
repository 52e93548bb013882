/**
 The local order book (orderbook/local_book.go): merging deltas into the two
 sides, and the proof that the sides always are the server's book at the local
 sequence number.
 */
module LocalBook {
  import opened Basics
  import opened Numbers

  datatype PriceQty = PriceQty(price: Int64, qty: Int64)

  /** A side: price ticks to scaled quantity. */
  type Levels = map<Int64, Int64>

  class BookSide {
    var levels: Levels

    constructor (levels: Levels)
      ensures this.levels == levels
    {
      this.levels := levels;
    }
  }

  datatype Delta = Delta(bookSeqStart: string, bookSeqEnd: string, reset: bool, bids: seq<PriceQty>,
      asks: seq<PriceQty>)

  datatype BookError =
    | LevelMissing
    | InvalidPrice
    | InvalidQuantity
    | NegativePrice
    | NegativeQuantity
    | BucketPriceOverflow
    | AskBucketOverflow
    | QuantityOverflow
    | NegativeDepth
    | InvalidLevel

  // ---------- Applying levels to one side ----------

  function SetLevel(levels: Levels, pair: PriceQty): Levels {
    if pair.price < 0 || pair.qty < 0 then levels
    else if pair.qty == 0 then levels - {pair.price}
    else levels[pair.price := pair.qty]
  }

  function SideAfter(levels: Levels, pairs: seq<PriceQty>): Levels {
    if pairs == [] then levels else SetLevel(SideAfter(levels, Init(pairs)), Last(pairs))
  }

  method ApplySideDelta(book: BookSide, pairs: seq<PriceQty>)
    modifies book
    ensures book.levels == SideAfter(old(book.levels), pairs)
  {
    for i := 0 to |pairs|
      invariant book.levels == SideAfter(old(book.levels), pairs[..i])
    {
      assert Init(pairs[..i + 1]) == pairs[..i];
      var price, qty := pairs[i].price, pairs[i].qty;
      if price < 0 || qty < 0 {
        continue;
      }
      if qty == 0 {
        book.levels := book.levels - {price};
      } else {
        book.levels := book.levels[price := qty];
      }
    }
    assert pairs[..|pairs|] == pairs;
  }

  // ---------- Loading a snapshot ----------

  predicate LevelOk(level: Option<PriceQty>) {
    level.Some? && level.value.price > 0 && level.value.qty > 0
  }

  function LevelError(level: Option<PriceQty>): BookError {
    if level.None? then LevelMissing else if level.value.price <= 0 then InvalidPrice else InvalidQuantity
  }

  function Loaded(levels: seq<Option<PriceQty>>): Levels
    requires forall i :: 0 <= i < |levels| ==> LevelOk(levels[i])
  {
    if levels == [] then map[]
    else
      assert LevelOk(levels[|levels| - 1]);
      Loaded(Init(levels))[Last(levels).value.price := Last(levels).value.qty]
  }

  /** The side, or the error of the first level that is not usable. */
  method LevelsFromProtoLevels(levels: seq<Option<PriceQty>>) returns (r: Result<Levels, BookError>)
    ensures r.Ok? <==> forall i :: 0 <= i < |levels| ==> LevelOk(levels[i])
    ensures r.Ok? ==> r.value == Loaded(levels)
    ensures r.Err? ==> exists i ::
      0 <= i < |levels| && (forall j :: 0 <= j < i ==> LevelOk(levels[j])) && !LevelOk(levels[i])
      && r.error == LevelError(levels[i])
  {
    var book: Levels := map[];
    for i := 0 to |levels|
      invariant forall j :: 0 <= j < i ==> LevelOk(levels[j])
      invariant book == Loaded(levels[..i])
    {
      assert Init(levels[..i + 1]) == levels[..i];
      var level := levels[i];
      if level.None? {
        return Err(LevelMissing);
      }
      var price, qty := level.value.price, level.value.qty;
      if price <= 0 {
        return Err(InvalidPrice);
      }
      if qty <= 0 {
        return Err(InvalidQuantity);
      }
      book := book[price := qty];
    }
    assert levels[..|levels|] == levels;
    return Ok(book);
  }

  // ---------- Merging a delta ----------

  datatype Book = Book(bids: Levels, asks: Levels, seqNo: Int64)

  predicate BadPair(pair: PriceQty) {
    pair.price < 0 || pair.qty < 0 || (pair.price == 0 && pair.qty > 0)
  }

  predicate AnyBad(pairs: seq<PriceQty>) {
    exists i :: 0 <= i < |pairs| && BadPair(pairs[i])
  }

  /** A delta refused whatever the book: a row that would corrupt it, or a sequence range that is none. */
  predicate Rejected(delta: Delta) {
    || AnyBad(delta.bids + delta.asks)
    || Atoi(delta.bookSeqStart).None?
    || Atoi(delta.bookSeqEnd).None?
    || First(delta) < 0
    || End(delta) < First(delta)
  }

  function First(delta: Delta): Int64 {
    match Atoi(delta.bookSeqStart) case Some(n) => n case None => 0
  }

  function End(delta: Delta): Int64 {
    match Atoi(delta.bookSeqEnd) case Some(n) => n case None => 0
  }

  predicate Gapped(seqNo: Int64, delta: Delta) {
    !delta.reset && First(delta) > seqNo + 1
  }

  /** The book after a delta, and whether a snapshot has to be fetched. */
  function Merge(book: Book, delta: Delta): (Book, bool) {
    if Rejected(delta) then (book, true)
    else if End(delta) <= book.seqNo then (book, false)
    else if Gapped(book.seqNo, delta) then (book, true)
    else if delta.reset then (Book(SideAfter(map[], delta.bids), SideAfter(map[], delta.asks), End(delta)), false)
    else (Book(SideAfter(book.bids, delta.bids), SideAfter(book.asks, delta.asks), End(delta)), false)
  }

  method FindBad(pairs: seq<PriceQty>) returns (bad: bool)
    ensures bad <==> AnyBad(pairs)
  {
    for i := 0 to |pairs|
      invariant forall j :: 0 <= j < i ==> !BadPair(pairs[j])
    {
      if BadPair(pairs[i]) {
        return true;
      }
    }
    return false;
  }

  method ApplyDelta(bids: BookSide, asks: BookSide, bookSeq: Int64, delta: Delta) returns (newSeq: Int64, refresh: bool)
    requires bids != asks
    modifies bids, asks
    ensures (Book(bids.levels, asks.levels, newSeq), refresh) ==
      Merge(Book(old(bids.levels), old(asks.levels), bookSeq), delta)
  {
    hide Atoi, AnyBad, SideAfter;
    newSeq := bookSeq;
    var corrupt := FindBad(delta.bids + delta.asks);
    if corrupt {
      return newSeq, true;
    }
    var start, end := Atoi(delta.bookSeqStart), Atoi(delta.bookSeqEnd);
    if start.None? || end.None? || start.value < 0 || end.value < start.value {
      return newSeq, true;
    }
    if end.value <= newSeq {
      return newSeq, false;
    }
    if !delta.reset && start.value > newSeq + 1 {
      return newSeq, true;
    }
    if delta.reset {
      bids.levels, asks.levels := map[], map[];
      newSeq := 0;
    }
    ApplySideDelta(bids, delta.bids);
    ApplySideDelta(asks, delta.asks);
    if end.value > newSeq {
      newSeq := end.value;
    }
    refresh := false;
  }

  /**
   A server prints its sequence numbers with `strconv.FormatUint`. Such a delta
   is refused exactly for a bad row, a range that is none, or an end that no
   `int` holds; of the others, an old one is ignored, one past a gap asks for a
   snapshot, and the rest move the book to their end.
   */
  lemma PrintedDelta(book: Book, delta: Delta, start: nat, end: nat)
    requires delta.bookSeqStart == FormatNat(start) && delta.bookSeqEnd == FormatNat(end)
    ensures Rejected(delta) <==> AnyBad(delta.bids + delta.asks) || end > MAX_INT64 || end < start
    ensures var (book', refresh) := Merge(book, delta);
      && (refresh <==> Rejected(delta) || (end > book.seqNo && !delta.reset && start > book.seqNo + 1))
      && book'.seqNo == (if refresh || end <= book.seqNo then book.seqNo else end)
  {
    hide FormatNat, AnyBad;
    AtoiFormatted(start);
    AtoiFormatted(end);
  }

  // ---------- The server's book ----------

  datatype Level = Level(ask: bool, price: Int64)

  /**
   Entry `k` is what book sequence number `k + 1` changed: levels and their new quantity, 0 for a level that is
   gone.
   */
  type ServerLog = seq<map<Level, int>>

  /** The quantity at `level` once the first `n` updates happened. */
  function LevelAt(log: ServerLog, level: Level, n: nat): int
    requires n <= |log|
  {
    if n == 0 then 0 else if level in log[n - 1] then log[n - 1][level] else LevelAt(log, level, n - 1)
  }

  ghost predicate SoundLog(log: ServerLog) {
    && |log| <= MAX_INT64
    && (forall k, level :: 0 <= k < |log| && level in log[k] ==> level.price > 0 && log[k][level] >= 0)
  }

  function Qty(levels: Levels, price: Int64): Int64 {
    if price in levels then levels[price] else 0
  }

  /** One side is the server's after `n` updates. */
  ghost predicate Mirrors(levels: Levels, log: ServerLog, ask: bool, n: int) {
    && 0 <= n <= |log|
    && (forall p: Int64 :: p in levels ==> levels[p] > 0)
    && (forall p: Int64 :: Qty(levels, p) == LevelAt(log, Level(ask, p), n))
  }

  ghost predicate MirrorsBook(book: Book, log: ServerLog) {
    Mirrors(book.bids, log, false, book.seqNo) && Mirrors(book.asks, log, true, book.seqNo)
  }

  /** The quantity a list of rows leaves at `price`, if it names it. */
  function Listed(pairs: seq<PriceQty>, price: Int64): Option<Int64> {
    if pairs == [] then None
    else if Last(pairs).price == price then Some(Last(pairs).qty)
    else Listed(Init(pairs), price)
  }

  ghost predicate Touched(log: ServerLog, level: Level, from: int, to: int)
    requires to <= |log|
  {
    exists k :: 0 <= k && from <= k < to && level in log[k]
  }

  /** The rows name every level changed by updates `first` to `end`, and give what `end` left there. */
  ghost predicate HonestRows(pairs: seq<PriceQty>, log: ServerLog, ask: bool, first: int, end: int)
    requires 0 <= end <= |log|
  {
    forall p: Int64 :: match Listed(pairs, p)
      case Some(q) => q == LevelAt(log, Level(ask, p), end)
      case None => !Touched(log, Level(ask, p), first - 1, end)
  }

  /** A reset's rows are the whole side. */
  ghost predicate WholeSide(pairs: seq<PriceQty>, log: ServerLog, ask: bool, end: int)
    requires 0 <= end <= |log|
  {
    forall p: Int64 :: LevelAt(log, Level(ask, p), end) == match Listed(pairs, p) case Some(q) => q case None => 0
  }

  /**
   A delta the client cannot refuse on sight says the truth about the server's book; one it refuses may say
   anything.
   */
  ghost predicate Honest(delta: Delta, log: ServerLog) {
    !Rejected(delta) ==>
      && End(delta) <= |log|
      && (if delta.reset
          then WholeSide(delta.bids, log, false, End(delta)) && WholeSide(delta.asks, log, true, End(delta))
          else
            && HonestRows(delta.bids, log, false, First(delta), End(delta))
            && HonestRows(delta.asks, log, true, First(delta), End(delta)))
  }

  // ---------- Refinement ----------

  lemma {:induction false} UntouchedLevel(log: ServerLog, level: Level, from: nat, to: nat)
    requires from <= to <= |log| && !Touched(log, level, from, to)
    ensures LevelAt(log, level, to) == LevelAt(log, level, from)
  {
    if from < to {
      assert level !in log[to - 1];
      forall k | 0 <= k && from <= k < to - 1 ensures level !in log[k] {}
      UntouchedLevel(log, level, from, to - 1);
    }
  }

  /** Applying rows one by one leaves, at every price, the last quantity named for it. */
  lemma {:induction false} SideAfterQty(levels: Levels, pairs: seq<PriceQty>, p: Int64)
    requires forall i :: 0 <= i < |pairs| ==> !BadPair(pairs[i])
    requires forall q: Int64 :: q in levels ==> levels[q] > 0
    ensures forall q: Int64 :: q in SideAfter(levels, pairs) ==> SideAfter(levels, pairs)[q] > 0
    ensures Qty(SideAfter(levels, pairs), p) == match Listed(pairs, p) case Some(q) => q case None => Qty(levels, p)
  {
    if pairs != [] {
      SideAfterQty(levels, Init(pairs), p);
    }
  }

  lemma RowsMirror(levels: Levels, pairs: seq<PriceQty>, log: ServerLog, ask: bool, n: int, first: int, end: int)
    requires Mirrors(levels, log, ask, n) && n < end <= |log| && first <= n + 1
    requires forall i :: 0 <= i < |pairs| ==> !BadPair(pairs[i])
    requires HonestRows(pairs, log, ask, first, end)
    ensures Mirrors(SideAfter(levels, pairs), log, ask, end)
  {
    SideAfterQty(levels, pairs, 0);
    forall p: Int64 ensures Qty(SideAfter(levels, pairs), p) == LevelAt(log, Level(ask, p), end) {
      SideAfterQty(levels, pairs, p);
      if Listed(pairs, p).None? {
        assert !Touched(log, Level(ask, p), first - 1, end);
        forall k | 0 <= k && n <= k < end ensures Level(ask, p) !in log[k] {}
        UntouchedLevel(log, Level(ask, p), n, end);
      }
    }
  }

  lemma WholeSideMirrors(pairs: seq<PriceQty>, log: ServerLog, ask: bool, end: int)
    requires 0 <= end <= |log| && WholeSide(pairs, log, ask, end)
    requires forall i :: 0 <= i < |pairs| ==> !BadPair(pairs[i])
    ensures Mirrors(SideAfter(map[], pairs), log, ask, end)
  {
    SideAfterQty(map[], pairs, 0);
    forall p: Int64 ensures Qty(SideAfter(map[], pairs), p) == LevelAt(log, Level(ask, p), end) {
      SideAfterQty(map[], pairs, p);
    }
  }

  lemma GoodRows(delta: Delta)
    requires !Rejected(delta)
    ensures forall i :: 0 <= i < |delta.bids| ==> !BadPair(delta.bids[i])
    ensures forall i :: 0 <= i < |delta.asks| ==> !BadPair(delta.asks[i])
  {
    var pairs := delta.bids + delta.asks;
    assert forall i :: 0 <= i < |pairs| ==> !BadPair(pairs[i]);
    assert forall i :: 0 <= i < |delta.bids| ==> delta.bids[i] == pairs[i];
    assert forall i :: 0 <= i < |delta.asks| ==> delta.asks[i] == pairs[|delta.bids| + i];
  }

  /**
   Whatever the delta — stale, overlapping, reset, malformed, gapped — the book stays the server's at its own
   sequence number.
   */
  lemma MergeRefines(book: Book, delta: Delta, log: ServerLog)
    requires MirrorsBook(book, log) && Honest(delta, log)
    ensures MirrorsBook(Merge(book, delta).0, log)
  {
    if !Rejected(delta) && End(delta) > book.seqNo && !Gapped(book.seqNo, delta) {
      GoodRows(delta);
      if delta.reset {
        WholeSideMirrors(delta.bids, log, false, End(delta));
        WholeSideMirrors(delta.asks, log, true, End(delta));
      } else {
        RowsMirror(book.bids, delta.bids, log, false, book.seqNo, First(delta), End(delta));
        RowsMirror(book.asks, delta.asks, log, true, book.seqNo, First(delta), End(delta));
      }
    }
  }

  /** A delta moves the sequence to its end, or leaves sides and sequence untouched; it never moves it back. */
  lemma MergeAllOrNothing(book: Book, delta: Delta)
    ensures var (after, refresh) := Merge(book, delta);
      && after.seqNo >= book.seqNo
      && (after == book || (after.seqNo == End(delta) > book.seqNo && !refresh))
      && (after == book && !refresh ==> !Rejected(delta) && End(delta) <= book.seqNo)
  {
  }

  // ---------- Runs ----------

  /** A snapshot whose two sides loaded, with the sequence number it carries, or a delta. */
  datatype BookEvent = SnapshotEvent(bids: seq<Option<PriceQty>>, asks: seq<Option<PriceQty>>,
      bookSeq: int) | DeltaEvent(delta: Delta)

  predicate Loadable(levels: seq<Option<PriceQty>>) {
    forall i :: 0 <= i < |levels| ==> LevelOk(levels[i])
  }

  /** A snapshot that does not load changes nothing. */
  function AfterEvent(book: Book, e: BookEvent): Book {
    match e
    case DeltaEvent(delta) => Merge(book, delta).0
    case SnapshotEvent(bids, asks, bookSeq) =>
      if Loadable(bids) && Loadable(asks) then Book(Loaded(bids), Loaded(asks), Wrap64(bookSeq)) else book
  }

  function Replay(events: seq<BookEvent>): Book {
    if events == [] then Book(map[], map[], 0) else AfterEvent(Replay(Init(events)), Last(events))
  }

  ghost predicate HonestEvent(e: BookEvent, log: ServerLog) {
    match e
    case DeltaEvent(delta) => Honest(delta, log)
    case SnapshotEvent(bids, asks, bookSeq) =>
      && 0 <= bookSeq <= |log|
      && (Loadable(bids) ==> forall p: Int64 :: LevelAt(log, Level(false, p), bookSeq) == Qty(Loaded(bids), p))
      && (Loadable(asks) ==> forall p: Int64 :: LevelAt(log, Level(true, p), bookSeq) == Qty(Loaded(asks), p))
  }

  lemma {:induction false} LoadedPositive(levels: seq<Option<PriceQty>>)
    requires Loadable(levels)
    ensures forall p: Int64 :: p in Loaded(levels) ==> Loaded(levels)[p] > 0
  {
    if levels != [] {
      LoadedPositive(Init(levels));
    }
  }

  /** After any sequence of snapshots and deltas the two sides are the server's book at the local sequence number. */
  lemma {:induction false} ReplayRefines(events: seq<BookEvent>, log: ServerLog)
    requires SoundLog(log) && forall i :: 0 <= i < |events| ==> HonestEvent(events[i], log)
    ensures MirrorsBook(Replay(events), log)
  {
    if events != [] {
      var book, e := Replay(Init(events)), Last(events);
      forall i | 0 <= i < |Init(events)|
        ensures HonestEvent(Init(events)[i], log) { assert Init(events)[i] == events[i]; }
      ReplayRefines(Init(events), log);
      match e {
        case DeltaEvent(delta) =>
          MergeRefines(book, delta, log);
        case SnapshotEvent(bids, asks, bookSeq) =>
          if Loadable(bids) && Loadable(asks) {
            LoadedPositive(bids);
            LoadedPositive(asks);
          }
      }
    }
  }

  /** Within one snapshot's lifetime the sequence never goes back. */
  lemma {:induction false} NeverBack(events: seq<BookEvent>, deltas: seq<BookEvent>)
    requires forall i :: 0 <= i < |deltas| ==> deltas[i].DeltaEvent?
    ensures Replay(events + deltas).seqNo >= Replay(events).seqNo
  {
    if deltas == [] {
      assert events + deltas == events;
    } else {
      NeverBack(events, Init(deltas));
      assert Init(events + deltas) == events + Init(deltas) && Last(events + deltas) == Last(deltas);
      MergeAllOrNothing(Replay(events + Init(deltas)), Last(deltas).delta);
    }
  }
}
