/**
 Rendering the local order book (orderbook/local_book.go): price buckets that
 are safe to execute against, and the best levels of a side. Map iteration
 order is arbitrary; the results are shown not to depend on it.
 */
module BookView {
  import opened Basics
  import opened Numbers
  import opened LocalBook

  // ---------- Checked arithmetic ----------

  function CheckedMul(a: Int64, b: Int64): Option<Int64>
  {
    if a == 0 || b == 0 then Some(0)
    else
      var result := Wrap64(a * b);
      if Wrap64(TruncDiv(result, a)) != b then None else Some(result)
  }

  function CheckedAdd(a: Int64, b: Int64): Option<Int64>
  {
    var result := Wrap64(a + b);
    if (b > 0 && result < a) || (b < 0 && result > a) then None else Some(result)
  }

  lemma CheckedAddExact(a: Int64, b: Int64)
    ensures CheckedAdd(a, b).Some? <==> IsInt64(a + b)
    ensures CheckedAdd(a, b).Some? ==> CheckedAdd(a, b).value == a + b
  {
  }

  lemma TruncDivExact(a: int, b: int)
    requires a != 0
    ensures TruncDiv(a * b, a) == b
  {
    if a * b >= 0 {
      assert (a * b) / a == b by { DivExact(a, b); }
    } else {
      assert (-(a * b)) / a == -b by { assert -(a * b) == a * (-b); DivExact(a, -b); }
    }
  }

  lemma DivExact(a: int, b: int)
    requires a != 0
    ensures (a * b) / a == b
  {
    var q, r := (a * b) / a, (a * b) % a;
    assert a * b == q * a + r;
    assert a * (b - q) == r;
    if b - q >= 1 { MulGrows(a, b - q); }
    if b - q <= -1 { MulGrows(a, q - b); }
  }

  lemma MulGrows(a: int, k: int)
    requires k >= 1
    ensures a >= 0 ==> a * k >= a
    ensures a <= 0 ==> a * k <= a
  {
    if a >= 0 { assert a * (k - 1) >= 0; } else { assert (-a) * (k - 1) >= 0; }
  }

  /** A truncated quotient is within one divisor of the dividend. */
  lemma TruncDivNear(x: int, a: int)
    requires a != 0
    ensures var rem := x - a * TruncDiv(x, a); (a > 0 ==> -a < rem < a) && (a < 0 ==> a < rem < -a)
  {
    if x >= 0 {
      assert x == a * (x / a) + x % a;
    } else {
      assert -x == a * ((-x) / a) + (-x) % a;
      assert a * TruncDiv(x, a) == -(a * ((-x) / a));
    }
  }

  lemma WrapShift(x: int)
    ensures exists m :: Wrap64(x) == x - m * TWO_64
  {
    var m := if x % TWO_64 > MAX_INT64 then x / TWO_64 + 1 else x / TWO_64;
    assert Wrap64(x) == x - m * TWO_64;
  }

  /** A wrapped product divided by one factor does not give the other. */
  lemma WrapSeen(product: int, a: int, b: int, q: int)
    requires a != 0 && IsInt64(a) && !IsInt64(product)
    requires product == a * b && q == TruncDiv(Wrap64(product), a)
    ensures q != b
  {
    WrapShift(product);
    var m :| Wrap64(product) == product - m * TWO_64;
    TruncDivNear(Wrap64(product), a);
    assert m != 0 && (q == b ==> a * q == product);
  }

  lemma QuotientFits(x: int, a: int)
    requires IsInt64(x) && a != 0 && !(a == -1 && x == MIN_INT64)
    ensures IsInt64(TruncDiv(x, a))
  {
    var q := TruncDiv(x, a);
    TruncDivNear(x, a);
    assert a * (-q) == -(a * q);
    if a >= 2 || a <= -2 {
      if q > MAX_INT64 { MulGrows(a, q); MulApart(a, q); }
      if q < MIN_INT64 { MulGrows(a, -q); MulApart(a, -q); }
    }
  }

  lemma MulApart(a: int, k: int)
    requires k >= 1 && (a >= 2 || a <= -2)
    ensures a >= 2 ==> a * k >= 2 * k + a - 2
    ensures a <= -2 ==> a * k <= -(2 * k) + a + 2
  {
    if a >= 2 {
      assert (a - 2) * (k - 1) >= 0;
    } else {
      assert (-a - 2) * (k - 1) >= 0;
      assert (-a - 2) * (k - 1) == -(a * k) + a - 2 * k + 2;
    }
  }

  /** Multiplication detects overflow, but for the one pair whose check overflows too. */
  lemma CheckedMulExact(a: Int64, b: Int64)
    ensures !(a == -1 && b == MIN_INT64) ==> CheckedMul(a, b) == if IsInt64(a * b) then Some(a * b) else None
    ensures a == -1 && b == MIN_INT64 ==> CheckedMul(a, b) == Some(MIN_INT64) && !IsInt64(a * b)
  {
    if a != 0 && b != 0 && !(a == -1 && b == MIN_INT64) {
      var product := a * b;
      var result := Wrap64(product);
      if IsInt64(product) {
        TruncDivExact(a, b);
      } else {
        WrapSeen(product, a, b, TruncDiv(result, a));
        assert a == -1 ==> product + b == 0;
        QuotientFits(result, a);
      }
    }
  }

  // ---------- Buckets ----------

  type Entry = (Int64, Int64)

  predicate Raw(e: Entry) {
    e.1 > 0
  }

  /** The display price of a raw price: bids round down, asks round up. */
  function BucketOf(price: int, b: int, asks: bool): int
    requires b > 0
  {
    var floor := price / b * b;
    if asks && price % b != 0 then floor + b else floor
  }

  lemma FloorOf(price: int, b: int)
    requires b > 0
    ensures price / b * b <= price < price / b * b + b
    ensures price / b * b == price - price % b
  {
  }

  /** A bid bucket is less than one bucket below its price, an ask bucket less than one above. */
  lemma BucketRange(price: int, b: int)
    requires b > 0
    ensures price - b < BucketOf(price, b, false) <= price
    ensures price <= BucketOf(price, b, true) < price + b
  {
    FloorOf(price, b);
  }

  // ---------- Sums over a side in any order ----------

  ghost function Sum(items: set<Entry>, f: Entry -> int): int {
    if items == {} then 0
    else
      var x :| x in items;
      f(x) + Sum(items - {x}, f)
  }

  lemma {:induction false} SumWithout(items: set<Entry>, f: Entry -> int, x: Entry)
    requires x in items
    ensures Sum(items, f) == f(x) + Sum(items - {x}, f)
    decreases |items|
  {
    var y :| y in items && Sum(items, f) == f(y) + Sum(items - {y}, f);
    if y != x {
      SumWithout(items - {y}, f, x);
      SumWithout(items - {x}, f, y);
      assert items - {y} - {x} == items - {x} - {y};
    }
  }

  lemma SumWith(items: set<Entry>, f: Entry -> int, x: Entry)
    requires x !in items
    ensures Sum(items + {x}, f) == f(x) + Sum(items, f)
  {
    SumWithout(items + {x}, f, x);
    assert items + {x} - {x} == items;
  }

  lemma {:induction false} SumMonotone(part: set<Entry>, items: set<Entry>, f: Entry -> int)
    requires part <= items && forall x :: f(x) >= 0
    ensures 0 <= Sum(part, f) <= Sum(items, f)
    decreases |items|
  {
    if items != {} {
      var x :| x in items;
      SumWithout(items, f, x);
      SumMonotone(part - {x}, items - {x}, f);
      if x in part {
        SumWithout(part, f, x);
      } else {
        assert part - {x} == part;
      }
    }
  }

  /** What a raw level adds to bucket `k`. */
  ghost function Share(b: int, asks: bool, k: int): (f: Entry -> int)
    requires b > 0
    ensures forall e :: f(e) >= 0
  {
    (e: Entry) => if Raw(e) && BucketOf(e.0, b, asks) == k then e.1 else 0
  }

  /** The raw quantity that falls into bucket `k`. */
  ghost function Total(items: set<Entry>, b: int, asks: bool, k: int): int
    requires b > 0
  {
    Sum(items, Share(b, asks, k))
  }

  predicate Fills(e: Entry, b: int, asks: bool, k: int)
    requires b > 0
  {
    Raw(e) && BucketOf(e.0, b, asks) == k
  }

  ghost predicate Filled(items: set<Entry>, b: int, asks: bool, k: int)
    requires b > 0
  {
    exists e :: e in items && Fills(e, b, asks, k)
  }

  /** `view` is the side `items` in buckets of `b` ticks. */
  ghost predicate Bucketed(view: Levels, items: set<Entry>, b: int, asks: bool)
    requires b > 0
  {
    && (forall k: Int64 :: k in view <==> Filled(items, b, asks, k))
    && (forall k: Int64 :: k in view ==> view[k] == Total(items, b, asks, k))
  }

  // ---------- BucketSide ----------

  predicate BadPrice(e: Entry) {
    e.0 < 0 || (e.0 == 0 && e.1 > 0)
  }

  /** Every raw level can be shown, every bucket has a price, every total fits. */
  ghost predicate Bucketable(items: set<Entry>, b: int, asks: bool)
    requires b > 0
  {
    && (forall e :: e in items ==> !BadPrice(e))
    && (forall e :: e in items && Raw(e) ==> IsInt64(BucketOf(e.0, b, asks)))
    && (forall k :: Total(items, b, asks, k) <= MAX_INT64)
  }

  lemma QuotientWithin(price: int, b: int)
    requires 0 < price && 0 < b
    ensures 0 <= price / b <= price
  {
    FloorOf(price, b);
    if price / b >= 1 { MulGrows(price / b, b); }
  }

  /** The bucket of one raw level, or why it has none. */
  function BucketPrice(price: Int64, b: Int64, asks: bool): Result<Int64, BookError>
    requires 0 < price && 0 < b
  {
    QuotientWithin(price, b);
    match CheckedMul(price / b, b)
    case None => Err(BucketPriceOverflow)
    case Some(floor) =>
      if asks && price % b != 0 then
        match CheckedAdd(floor, b)
        case None => Err(AskBucketOverflow)
        case Some(up) => Ok(up)
      else Ok(floor)
  }

  /** The floor never overflows; an ask bucket may. */
  lemma BucketPriceExact(price: Int64, b: Int64, asks: bool)
    requires 0 < price && 0 < b
    ensures BucketPrice(price, b, asks) == if IsInt64(BucketOf(price, b, asks)) then Ok(BucketOf(price, b, asks))
      else Err(AskBucketOverflow)
  {
    QuotientWithin(price, b);
    FloorOf(price, b);
    CheckedMulExact(price / b, b);
    CheckedAddExact(price / b * b, b);
  }

  lemma {:induction false} EmptyTotal(items: set<Entry>, b: int, asks: bool, k: int)
    requires b > 0
    ensures Filled(items, b, asks, k) ==> Total(items, b, asks, k) > 0
    ensures !Filled(items, b, asks, k) ==> Total(items, b, asks, k) == 0
    decreases |items|
  {
    if items != {} {
      var x :| x in items;
      SumWithout(items, Share(b, asks, k), x);
      EmptyTotal(items - {x}, b, asks, k);
      SumMonotone({}, items - {x}, Share(b, asks, k));
      if Filled(items, b, asks, k) && !Fills(x, b, asks, k) {
        var e :| e in items && Fills(e, b, asks, k);
        assert e in items - {x};
      }
      assert Filled(items - {x}, b, asks, k) ==> Filled(items, b, asks, k);
      assert Fills(x, b, asks, k) ==> Filled(items, b, asks, k);
    }
  }

  /** Adding one raw level to a bucketed side. */
  lemma AddLevel(view: Levels, done: set<Entry>, e: Entry, b: int, asks: bool)
    requires b > 0 && Raw(e) && e !in done && Bucketed(view, done, b, asks) && IsInt64(BucketOf(e.0, b, asks))
    ensures var k := BucketOf(e.0, b, asks);
      && Qty(view, k) >= 0 && Qty(view, k) + e.1 == Total(done + {e}, b, asks, k)
      && (IsInt64(Qty(view, k) + e.1) ==> Bucketed(view[k := Qty(view, k) + e.1], done + {e}, b, asks))
  {
    var at := BucketOf(e.0, b, asks);
    assert Fills(e, b, asks, at) && e in done + {e};
    EmptyTotal(done, b, asks, at);
    SumWith(done, Share(b, asks, at), e);
    if IsInt64(Qty(view, at) + e.1) {
      AddedLevel(view, view[at := Qty(view, at) + e.1], done, e, b, asks);
    }
  }

  lemma AddedLevel(view: Levels, view': Levels, done: set<Entry>, e: Entry, b: int, asks: bool)
    requires b > 0 && Raw(e) && e !in done && Bucketed(view, done, b, asks) && IsInt64(BucketOf(e.0, b, asks))
    requires IsInt64(Total(done + {e}, b, asks, BucketOf(e.0, b, asks)))
    requires view' == view[BucketOf(e.0, b, asks) := Total(done + {e}, b, asks, BucketOf(e.0, b, asks))]
    ensures Bucketed(view', done + {e}, b, asks)
  {
    hide Sum, BucketOf;
    forall k: Int64
      ensures k in view' <==> Filled(done + {e}, b, asks, k)
      ensures k in view' ==> view'[k] == Total(done + {e}, b, asks, k)
    {
      SumWith(done, Share(b, asks, k), e);
      FilledMore(done, e, b, asks, k);
    }
  }

  lemma FilledMore(done: set<Entry>, e: Entry, b: int, asks: bool, k: int)
    requires b > 0
    ensures Filled(done + {e}, b, asks, k) <==> Filled(done, b, asks, k) || Fills(e, b, asks, k)
  {
    if Filled(done, b, asks, k) {
      var x :| x in done && Fills(x, b, asks, k);
      assert x in done + {e};
    }
    if Fills(e, b, asks, k) { assert e in done + {e}; }
  }

  lemma SkipLevel(view: Levels, done: set<Entry>, e: Entry, b: int, asks: bool)
    requires b > 0 && !Raw(e) && e !in done && Bucketed(view, done, b, asks)
    ensures Bucketed(view, done + {e}, b, asks)
  {
    forall k
      ensures Filled(done + {e}, b, asks, k) <==> Filled(done, b, asks, k)
      ensures Total(done + {e}, b, asks, k) == Total(done, b, asks, k)
    {
      SumWith(done, Share(b, asks, k), e);
      FilledMore(done, e, b, asks, k);
    }
  }

  /** Every bucket of a finished view is within its total. */
  lemma TotalsFit(view: Levels, items: set<Entry>, b: int, asks: bool)
    requires b > 0 && Bucketed(view, items, b, asks)
    requires forall e :: e in items && Raw(e) ==> IsInt64(BucketOf(e.0, b, asks))
    ensures forall k :: Total(items, b, asks, k) <= MAX_INT64
  {
    forall k ensures Total(items, b, asks, k) <= MAX_INT64 {
      EmptyTotal(items, b, asks, k);
    }
  }

  lemma TooMuch(done: set<Entry>, items: set<Entry>, b: int, asks: bool, k: int)
    requires b > 0 && done <= items && Total(done, b, asks, k) > MAX_INT64
    ensures !Bucketable(items, b, asks)
  {
    SumMonotone(done, items, Share(b, asks, k));
    assert Total(items, b, asks, k) > MAX_INT64;
  }

  predicate PlainEntry(e: Entry) {
    !BadPrice(e) && e.1 >= 0
  }

  /**
   Without a bucket the side itself, checked. With one, the bucketed side: in
   whatever order the levels come it is computed exactly when every raw level
   can be shown and every bucket's price and total fits.
   */
  method BucketSide(book: Levels, bucketTicks: Int64, asks: bool) returns (r: Result<Levels, BookError>)
    ensures bucketTicks <= 0 ==>
      && (r.Ok? <==> forall e :: e in book.Items ==> PlainEntry(e))
      && (r.Ok? ==> r.value == book)
    ensures bucketTicks > 0 ==>
      && (r.Ok? <==> Bucketable(book.Items, bucketTicks, asks))
      && (r.Ok? ==> Bucketed(r.value, book.Items, bucketTicks, asks))
  {
    if bucketTicks <= 0 {
      r := CheckPlain(book);
      return;
    }
    r := Aggregate(book, bucketTicks, asks);
  }

  method Aggregate(book: Levels, bucketTicks: Int64, asks: bool) returns (r: Result<Levels, BookError>)
    requires bucketTicks > 0
    ensures r.Ok? <==> Bucketable(book.Items, bucketTicks, asks)
    ensures r.Ok? ==> Bucketed(r.value, book.Items, bucketTicks, asks)
  {
    var aggregated: Levels := map[];
    ghost var done: set<Entry> := {};
    var todo := book.Items;
    while todo != {}
      invariant done !! todo && done + todo == book.Items
      invariant Progress(aggregated, done, bucketTicks, asks)
      decreases |todo|
    {
      var e :| e in todo;
      var (price, qty) := e;
      NextLevel(aggregated, done, e, book.Items, bucketTicks, asks);
      todo, done := todo - {e}, done + {e};
      if price < 0 {
        return Err(NegativePrice);
      }
      if qty <= 0 {
        continue;
      }
      if price == 0 {
        return Err(InvalidPrice);
      }
      var bucket := BucketPrice(price, bucketTicks, asks);
      if bucket.Err? {
        return Err(bucket.error);
      }
      var sum := CheckedAdd(Qty(aggregated, bucket.value), qty);
      if sum.None? {
        return Err(QuantityOverflow);
      }
      aggregated := aggregated[bucket.value := sum.value];
    }
    assert done == book.Items;
    Finished(aggregated, done, bucketTicks, asks);
    return Ok(aggregated);
  }

  /** What the loop of `BucketSide` knows of the levels it has seen. */
  ghost predicate Progress(view: Levels, done: set<Entry>, b: int, asks: bool)
    requires b > 0
  {
    && (forall e :: e in done ==> !BadPrice(e) && (Raw(e) ==> IsInt64(BucketOf(e.0, b, asks))))
    && Bucketed(view, done, b, asks)
  }

  lemma Finished(view: Levels, items: set<Entry>, b: int, asks: bool)
    requires b > 0 && Progress(view, items, b, asks)
    ensures Bucketable(items, b, asks)
  {
    TotalsFit(view, items, b, asks);
  }

  /** One turn of the loop: the level is skipped, added to its bucket, or shows that the side has no view. */
  lemma NextLevel(view: Levels, done: set<Entry>, e: Entry, items: set<Entry>, b: Int64, asks: bool)
    requires b > 0 && e !in done && done + {e} <= items && Progress(view, done, b, asks)
    ensures e.0 < 0 || (e.1 > 0 && e.0 == 0) ==> !Bucketable(items, b, asks)
    ensures e.0 >= 0 && e.1 <= 0 ==> Progress(view, done + {e}, b, asks)
    ensures e.0 > 0 && e.1 > 0 ==>
      match BucketPrice(e.0, b, asks)
      case Err(_) => !Bucketable(items, b, asks)
      case Ok(k) =>
        match CheckedAdd(Qty(view, k), e.1)
        case Some(sum) => Progress(view[k := sum], done + {e}, b, asks)
        case None => !Bucketable(items, b, asks)
  {
    assert e in items;
    if e.0 < 0 || (e.1 > 0 && e.0 == 0) {
      assert BadPrice(e);
    } else if e.1 <= 0 {
      SkipLevel(view, done, e, b, asks);
    } else {
      BucketPriceExact(e.0, b, asks);
      if IsInt64(BucketOf(e.0, b, asks)) {
        AddProgress(view, done, e, items, b, asks);
      } else {
        assert Raw(e);
      }
    }
  }

  lemma AddProgress(view: Levels, done: set<Entry>, e: Entry, items: set<Entry>, b: int, asks: bool)
    requires b > 0 && e !in done && Raw(e) && !BadPrice(e) && Progress(view, done, b, asks)
    requires IsInt64(BucketOf(e.0, b, asks)) && done + {e} <= items
    ensures var k := BucketOf(e.0, b, asks);
      match CheckedAdd(Qty(view, k), e.1)
      case Some(sum) => Progress(view[k := sum], done + {e}, b, asks)
      case None => !Bucketable(items, b, asks)
  {
    var k := BucketOf(e.0, b, asks);
    AddLevel(view, done, e, b, asks);
    CheckedAddExact(Qty(view, k), e.1);
    if !IsInt64(Qty(view, k) + e.1) {
      TooMuch(done + {e}, items, b, asks, k);
    }
  }

  method CheckPlain(book: Levels) returns (r: Result<Levels, BookError>)
    ensures r.Ok? <==> forall e :: e in book.Items ==> PlainEntry(e)
    ensures r.Ok? ==> r.value == book
  {
    ghost var done: set<Entry> := {};
    var todo := book.Items;
    while todo != {}
      invariant done !! todo && done + todo == book.Items
      invariant forall e :: e in done ==> PlainEntry(e)
      decreases |todo|
    {
      var e :| e in todo;
      assert e in book.Items;
      var (price, qty) := e;
      todo, done := todo - {e}, done + {e};
      if price < 0 {
        assert !PlainEntry(e);
        return Err(NegativePrice);
      }
      if qty < 0 {
        assert !PlainEntry(e);
        return Err(NegativeQuantity);
      }
      if price == 0 && qty > 0 {
        assert !PlainEntry(e);
        return Err(InvalidPrice);
      }
    }
    assert done == book.Items;
    return Ok(book);
  }

  // ---------- What bucketing keeps ----------

  ghost predicate Uncrossed(bids: Levels, asks: Levels) {
    forall p, q :: p in bids && bids[p] > 0 && q in asks && asks[q] > 0 ==> p < q
  }

  /** An uncrossed book stays uncrossed, whatever the buckets of its two sides. */
  lemma UncrossedStays(bids: Levels, asks: Levels, bidView: Levels, askView: Levels, b: int)
    requires b > 0 && Uncrossed(bids, asks)
    requires Bucketed(bidView, bids.Items, b, false) && Bucketed(askView, asks.Items, b, true)
    ensures Uncrossed(bidView, askView)
  {
    forall k, l | k in bidView && l in askView ensures k < l {
      var x :| x in bids.Items && Fills(x, b, false, k);
      var y :| y in asks.Items && Fills(y, b, true, l);
      assert x.0 in bids && bids[x.0] > 0 && y.0 in asks && asks[y.0] > 0;
      BucketRange(x.0, b);
      BucketRange(y.0, b);
    }
  }

  /** A bucketed side is determined by the raw side: the order it was computed in does not show. */
  lemma BucketedUnique(view: Levels, view': Levels, items: set<Entry>, b: int, asks: bool)
    requires b > 0 && Bucketed(view, items, b, asks) && Bucketed(view', items, b, asks)
    ensures view == view'
  {
  }

  ghost function Amount(): Entry -> int {
    (e: Entry) => if Raw(e) then e.1 else 0
  }

  lemma OneMore(items: set<Entry>, rest: set<Entry>, e: Entry)
    requires forall x :: x in items <==> x in rest || x == e
    ensures items == rest + {e}
  {
  }

  lemma ItemsSet(view: Levels, k: Int64, v: Int64)
    ensures view[k := v].Items == (view - {k}).Items + {(k, v)}
  {
    var with, rest := view[k := v], view - {k};
    forall e: Entry ensures e in with.Items <==> e in rest.Items || e == (k, v) {
      assert e in with.Items <==> e.0 in with && with[e.0] == e.1;
      assert e in rest.Items <==> e.0 in rest && rest[e.0] == e.1;
    }
    OneMore(with.Items, rest.Items, (k, v));
  }

  lemma SumSet(view: Levels, k: Int64, v: Int64)
    ensures Sum(view[k := v].Items, Amount()) == Sum((view - {k}).Items, Amount()) + Amount()((k, v))
  {
    var rest := view - {k};
    assert (k, v) !in rest.Items;
    ItemsSet(view, k, v);
    SumWith(rest.Items, Amount(), (k, v));
  }

  /** Taking `q` off one bucket takes `q` off the sum. */
  lemma TakeOff(view: Levels, k: Int64, q: Int64)
    requires k in view && 0 < q <= view[k]
    ensures Sum(view.Items, Amount()) == q + Sum(Reduced(view, k, q).Items, Amount())
  {
    SumSet(view, k, view[k]);
    assert view[k := view[k]] == view;
    if view[k] != q {
      SumSet(view, k, view[k] - q);
    }
  }

  function Reduced(view: Levels, k: Int64, q: Int64): Levels
    requires k in view && 0 < q <= view[k]
  {
    if view[k] == q then view - {k} else view[k := view[k] - q]
  }

  /** Bucketing neither loses nor invents quantity. */
  lemma {:induction false} QuantityConserved(view: Levels, items: set<Entry>, b: int, asks: bool)
    requires b > 0 && Bucketed(view, items, b, asks)
    requires forall e :: e in items && Raw(e) ==> IsInt64(BucketOf(e.0, b, asks))
    ensures Sum(view.Items, Amount()) == Sum(items, Amount())
    decreases |items|
  {
    if items == {} {
      assert forall k: Int64 :: k !in view;
      assert view.Items == {};
    } else {
      var e :| e in items;
      SumWithout(items, Amount(), e);
      Unbucket(view, items, e, b, asks);
      if Raw(e) {
        var k := BucketOf(e.0, b, asks);
        QuantityConserved(Reduced(view, k, e.1), items - {e}, b, asks);
        TakeOff(view, k, e.1);
      } else {
        QuantityConserved(view, items - {e}, b, asks);
      }
    }
  }

  /** The view before one raw level was added. */
  lemma WithoutOne(items: set<Entry>, e: Entry, b: int, asks: bool, k: int)
    requires b > 0 && e in items
    ensures Filled(items, b, asks, k) <==> Filled(items - {e}, b, asks, k) || Fills(e, b, asks, k)
    ensures Total(items, b, asks, k) == Total(items - {e}, b, asks, k) + if Fills(e, b, asks, k) then e.1 else 0
  {
    hide BucketOf;
    assert items - {e} + {e} == items;
    SumWithout(items, Share(b, asks, k), e);
    FilledMore(items - {e}, e, b, asks, k);
  }

  lemma Unbucket(view: Levels, items: set<Entry>, e: Entry, b: int, asks: bool)
    requires b > 0 && e in items && Bucketed(view, items, b, asks) && (Raw(e) ==> IsInt64(BucketOf(e.0, b, asks)))
    ensures !Raw(e) ==> Bucketed(view, items - {e}, b, asks)
    ensures Raw(e) ==>
      var k := BucketOf(e.0, b, asks);
      k in view && 0 < e.1 <= view[k] && Bucketed(Reduced(view, k, e.1), items - {e}, b, asks)
  {
    var rest := items - {e};
    forall k
      ensures Filled(items, b, asks, k) <==> Filled(rest, b, asks, k) || Fills(e, b, asks, k)
      ensures Total(items, b, asks, k) == Total(rest, b, asks, k) + if Fills(e, b, asks, k) then e.1 else 0
    {
      WithoutOne(items, e, b, asks, k);
    }
    if Raw(e) {
      var k := BucketOf(e.0, b, asks);
      EmptyTotal(rest, b, asks, k);
      assert forall j :: Fills(e, b, asks, j) <==> j == k;
      hide Total, Filled, BucketOf, Fills, Raw;
      TakenOut(view, items, rest, b, asks, k, e.1);
    } else {
      hide Total, Filled, BucketOf;
    }
  }

  lemma TakenOut(view: Levels, items: set<Entry>, rest: set<Entry>, b: int, asks: bool, k: Int64, q: int)
    requires b > 0 && q > 0 && Bucketed(view, items, b, asks)
    requires forall j :: Filled(items, b, asks, j) <==> Filled(rest, b, asks, j) || j == k
    requires forall j :: Total(items, b, asks, j) == Total(rest, b, asks, j) + if j == k then q else 0
    requires Total(rest, b, asks, k) >= 0 && (Total(rest, b, asks, k) == 0 <==> !Filled(rest, b, asks, k))
    ensures k in view && q <= view[k] && Bucketed(Reduced(view, k, q), rest, b, asks)
  {
    hide Total, Filled;
    assert view[k] == Total(items, b, asks, k);
  }

  // ---------- Rendering ----------

  /** `p` is shown before `q`: the higher bid, the lower ask. */
  predicate Better(p: Int64, q: Int64, asks: bool) {
    if asks then p < q else p > q
  }

  predicate Ordered(s: seq<PriceQty>, asks: bool) {
    forall i, j :: 0 <= i < j < |s| ==> Better(s[i].price, s[j].price, asks)
  }

  predicate InView(view: Levels, x: PriceQty) {
    x.price in view && view[x.price] == x.qty
  }

  /** `out` is the best `limit` levels of `view`, or all of them when there are fewer, in strict order. */
  ghost predicate Best(out: seq<PriceQty>, view: Levels, limit: int, asks: bool) {
    && |out| == (if limit < |view| then limit else |view|)
    && Ordered(out, asks)
    && (forall i :: 0 <= i < |out| ==> InView(view, out[i]))
    && (forall p, i :: p in view && 0 <= i < |out| && (forall j :: 0 <= j < |out| ==> out[j].price != p) ==>
      Better(out[i].price, p, asks))
  }

  /** `sort.Slice`: where an entry belongs among entries already in order. */
  method Insert(sorted: seq<PriceQty>, x: PriceQty, asks: bool) returns (r: seq<PriceQty>)
    requires Ordered(sorted, asks) && forall i :: 0 <= i < |sorted| ==> sorted[i].price != x.price
    ensures Ordered(r, asks) && |r| == |sorted| + 1
    ensures forall y :: y in r <==> y in sorted || y == x
  {
    var at := 0;
    while at < |sorted| && Better(sorted[at].price, x.price, asks)
      invariant at <= |sorted|
      invariant forall i :: 0 <= i < at ==> Better(sorted[i].price, x.price, asks)
    {
      at := at + 1;
    }
    r := sorted[..at] + [x] + sorted[at..];
    assert sorted == sorted[..at] + sorted[at..];
  }

  /** All levels of a side in display order, whatever order the map yields them in. */
  method SortedLevels(view: Levels, asks: bool) returns (r: Result<seq<PriceQty>, BookError>)
    ensures r.Ok? <==> forall p :: p in view ==> p >= 0 && view[p] > 0
    ensures r.Ok? ==> |r.value| == |view| && Ordered(r.value, asks)
    ensures r.Ok? ==> forall x :: x in r.value <==> InView(view, x)
  {
    var sorted: seq<PriceQty> := [];
    var todo := view.Keys;
    while todo != {}
      invariant todo <= view.Keys
      invariant |sorted| == |view| - |todo| && Ordered(sorted, asks)
      invariant forall x :: x in sorted <==> InView(view, x) && x.price !in todo
      invariant forall p :: p in view && p !in todo ==> p >= 0 && view[p] > 0
      decreases todo
    {
      var price :| price in todo;
      var qty := view[price];
      if price < 0 || qty <= 0 {
        return Err(InvalidLevel);
      }
      sorted := Insert(sorted, PriceQty(price, qty), asks);
      todo := todo - {price};
    }
    return Ok(sorted);
  }

  /** The best `limit` levels of one side. */
  method SideToLevels(book: Levels, asks: bool, limit: Int64, bucketTicks: Int64)
      returns (r: Result<seq<PriceQty>, BookError>)
    requires limit >= 0
    ensures r.Ok? ==> exists view :: Viewed(book, view, asks, bucketTicks) && Best(r.value, view, limit, asks)
    ensures bucketTicks > 0 ==> (r.Ok? <==> Bucketable(book.Items, bucketTicks, asks))
    ensures bucketTicks <= 0 ==> (r.Ok? <==> forall e :: e in book.Items ==> e.0 > 0 && e.1 > 0)
  {
    var view := BucketSide(book, bucketTicks, asks);
    if view.Err? {
      return Err(view.error);
    }
    ViewShown(book, view.value, asks, bucketTicks);
    var entries := SortedLevels(view.value, asks);
    if entries.Err? {
      return entries;
    }
    var shown := if limit > |entries.value| then |entries.value| else limit;
    BestPrefix(entries.value, view.value, limit, asks);
    r := Ok(entries.value[..shown]);
  }

  /** `view` is what a side is rendered from. */
  ghost predicate Viewed(book: Levels, view: Levels, asks: bool, bucketTicks: int) {
    if bucketTicks > 0 then Bucketed(view, book.Items, bucketTicks, asks) else view == book
  }

  lemma ViewShown(book: Levels, view: Levels, asks: bool, bucketTicks: int)
    requires Viewed(book, view, asks, bucketTicks)
    ensures bucketTicks > 0 && (forall e :: e in book.Items ==> !BadPrice(e)) ==> forall p :: p in view ==>
      p >= 0 && view[p] > 0
    ensures bucketTicks <= 0 && (forall e :: e in book.Items ==> PlainEntry(e)) ==>
      ((forall p :: p in view ==> p >= 0 && view[p] > 0) <==> forall e :: e in book.Items ==> e.0 > 0 && e.1 > 0)
  {
    if bucketTicks > 0 && forall e :: e in book.Items ==> !BadPrice(e) {
      forall k | k in view ensures k >= 0 && view[k] > 0 {
        EmptyTotal(book.Items, bucketTicks, asks, k);
        var e :| e in book.Items && Fills(e, bucketTicks, asks, k);
        BucketRange(e.0, bucketTicks);
        FloorAboveZero(e.0, bucketTicks);
      }
    }
    if bucketTicks <= 0 {
      forall p | p in book ensures (p, book[p]) in book.Items {}
    }
  }

  lemma FloorAboveZero(price: int, b: int)
    requires b > 0 && price >= 0
    ensures BucketOf(price, b, false) >= 0 && BucketOf(price, b, true) >= 0
  {
    FloorOf(price, b);
  }

  lemma BestPrefix(entries: seq<PriceQty>, view: Levels, limit: int, asks: bool)
    requires 0 <= limit && |entries| == |view| && Ordered(entries, asks)
    requires forall x :: x in entries <==> InView(view, x)
    ensures Best(entries[..if limit > |entries| then |entries| else limit], view, limit, asks)
  {
    var out := entries[..if limit > |entries| then |entries| else limit];
    forall p, i | p in view && 0 <= i < |out| && (forall j :: 0 <= j < |out| ==> out[j].price != p)
      ensures Better(out[i].price, p, asks)
    {
      var x := PriceQty(p, view[p]);
      assert x in entries;
      var k :| 0 <= k < |entries| && entries[k] == x;
      assert k >= |out|;
    }
  }

  /** The levels shown are determined by the view: neither map order nor the sort shows. */
  lemma BestUnique(out: seq<PriceQty>, out': seq<PriceQty>, view: Levels, limit: int, asks: bool)
    requires Best(out, view, limit, asks) && Best(out', view, limit, asks)
    ensures out == out'
  {
    forall i | 0 <= i < |out| ensures out[i] == out'[i] {
      SamePlace(out, out', view, limit, asks, i);
    }
  }

  lemma {:induction false} SamePlace(out: seq<PriceQty>, out': seq<PriceQty>, view: Levels, limit: int, asks: bool,
      i: nat)
    requires Best(out, view, limit, asks) && Best(out', view, limit, asks) && i < |out|
    ensures out[i] == out'[i]
    decreases i
  {
    forall j | 0 <= j < i ensures out[j] == out'[j] { SamePlace(out, out', view, limit, asks, j); }
    NotBefore(out, out', view, limit, asks, i);
    NotBefore(out', out, view, limit, asks, i);
  }

  lemma NotBefore(out: seq<PriceQty>, out': seq<PriceQty>, view: Levels, limit: int, asks: bool, i: nat)
    requires Best(out, view, limit, asks) && Best(out', view, limit, asks) && i < |out|
    requires forall j :: 0 <= j < i ==> out[j] == out'[j]
    ensures !Better(out[i].price, out'[i].price, asks)
  {
    var p := out[i].price;
    assert InView(view, out[i]);
    hide InView;
    if j :| 0 <= j < |out'| && out'[j].price == p {
      assert j < i ==> Better(out[j].price, p, asks);
      assert j > i ==> Better(out'[i].price, p, asks);
    } else {
      assert Better(out'[i].price, p, asks);
    }
  }

  datatype BookData = BookData(depth: Int64, bookSeq: Int64, bids: seq<PriceQty>, asks: seq<PriceQty>)

  /** A book that can be shown at all. */
  ghost predicate Renderable(depth: int, bids: Levels, asks: Levels, bucketTicks: int) {
    && depth >= 0
    && if bucketTicks > 0
       then Bucketable(bids.Items, bucketTicks, false) && Bucketable(asks.Items, bucketTicks, true)
       else (forall e :: e in bids.Items + asks.Items ==> e.0 > 0 && e.1 > 0)
  }

  /** `data` shows exactly the best `depth` levels of either side of the book. */
  ghost predicate Shows(data: BookData, depth: int, bookSeq: int, bids: Levels, asks: Levels, bucketTicks: int) {
    && data.depth == depth && data.bookSeq == bookSeq
    && (exists view :: Viewed(bids, view, false, bucketTicks) && Best(data.bids, view, depth, false))
    && (exists view :: Viewed(asks, view, true, bucketTicks) && Best(data.asks, view, depth, true))
  }

  method BuildOrderbookData(depth: Int64, bookSeq: Int64, bids: Levels, asks: Levels, bucketTicks: Int64)
      returns (r: Result<BookData, BookError>)
    ensures depth < 0 ==> r == Err(NegativeDepth)
    ensures r.Ok? <==> Renderable(depth, bids, asks, bucketTicks)
    ensures r.Ok? ==> Shows(r.value, depth, bookSeq, bids, asks, bucketTicks)
  {
    if depth < 0 {
      return Err(NegativeDepth);
    }
    var bidLevels := SideToLevels(bids, false, depth, bucketTicks);
    if bidLevels.Err? {
      return Err(bidLevels.error);
    }
    var askLevels := SideToLevels(asks, true, depth, bucketTicks);
    if askLevels.Err? {
      return Err(askLevels.error);
    }
    return Ok(BookData(depth, bookSeq, bidLevels.value, askLevels.value));
  }

  /** The best bid shown is below the best ask shown. */
  lemma ShownUncrossed(bids: Levels, asks: Levels, bidView: Levels, askView: Levels, shownBids: seq<PriceQty>,
      shownAsks: seq<PriceQty>, depth: int, b: int)
    requires Uncrossed(bids, asks) && Viewed(bids, bidView, false, b) && Viewed(asks, askView, true, b)
    requires Best(shownBids, bidView, depth, false) && Best(shownAsks, askView, depth, true)
    requires forall i :: 0 <= i < |shownBids| ==> shownBids[i].qty > 0
    requires forall i :: 0 <= i < |shownAsks| ==> shownAsks[i].qty > 0
    ensures forall i, j :: 0 <= i < |shownBids| && 0 <= j < |shownAsks| ==> shownBids[i].price < shownAsks[j].price
  {
    if b > 0 { UncrossedStays(bids, asks, bidView, askView, b); }
    forall i, j | 0 <= i < |shownBids| && 0 <= j < |shownAsks| ensures shownBids[i].price < shownAsks[j].price {
      assert InView(bidView, shownBids[i]) && InView(askView, shownAsks[j]);
    }
  }
}
