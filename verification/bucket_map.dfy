/** The spatial index: elements in square buckets, found by area. */
module BucketIndex {
  import opened Arithmetic
  import opened Collections
  import opened Grid

  /** Division in C++, towards zero. */
  function TruncDiv(a: int, b: nat): int
    requires b > 0
  {
    if a >= 0 then a / b else -((-a) / b)
  }

  function Bucket(v: Vec2, size: nat): Vec2
    requires size > 0
  {
    Vec2(TruncDiv(v.x, size), TruncDiv(v.y, size))
  }

  /** The buckets that an area is taken to cover. */
  function BucketArea(area: Rectangle, size: nat): Rectangle
    requires size > 0
  {
    Rectangle(TruncDiv(area.left, size), TruncDiv(area.top, size),
              TruncDiv(area.right - 1, size) + 1, TruncDiv(area.bottom - 1, size) + 1)
  }

  lemma QuotientMono(a: nat, b: nat, n: nat)
    requires n > 0 && a <= b
    ensures a / n <= b / n
  {
    Divided(a, n);
    Divided(b, n);
    if b / n < a / n { Spread(b / n, a / n, n); }
  }

  lemma Quotients(a: nat, n: nat)
    requires n > 0
    ensures a / n >= 0 && (a < n ==> a / n == 0) && (a >= n ==> a / n >= 1)
  {
    Divided(a, n);
    if a < n { QuotientIs(0, a, n); } else { QuotientMono(n, a, n); assert n == 1 * n + 0; QuotientIs(1, 0, n); }
  }

  /** Between two bounds, one of which may be negative, the quotients stay in order. */
  lemma TruncBetween(lo: int, x: nat, hi: int, n: nat)
    requires n > 0
    ensures lo <= x ==> TruncDiv(lo, n) <= TruncDiv(x, n)
    ensures x <= hi ==> TruncDiv(x, n) <= TruncDiv(hi, n)
  {
    Quotients(x, n);
    if lo < 0 {
      Quotients(-lo, n);
    } else if lo <= x {
      QuotientMono(lo, x, n);
    }
    if x <= hi { QuotientMono(x, hi, n); }
  }

  /** A square of the area is in a bucket of the area, whatever edges of the area hang over the map. */
  lemma AreaCovered(area: Rectangle, v: Vec2, size: nat)
    requires size > 0 && v.x >= 0 && v.y >= 0 && area.Contains(v)
    ensures BucketArea(area, size).Contains(Bucket(v, size))
  {
    TruncBetween(area.left, v.x, area.right - 1, size);
    TruncBetween(area.top, v.y, area.bottom - 1, size);
  }

  /** Quotients in order keep numbers less than a bucket out of order. */
  lemma TruncNear(lo: int, x: nat, hi: int, n: nat)
    requires n > 0
    ensures TruncDiv(lo, n) <= TruncDiv(x, n) ==> lo - n < x
    ensures hi >= 0 && TruncDiv(x, n) <= TruncDiv(hi, n) ==> x < hi + n
    ensures hi <= 0 - n ==> TruncDiv(hi, n) + 1 <= 0
    ensures 0 - n < hi < 0 ==> (TruncDiv(x, n) <= TruncDiv(hi, n) <==> x < n)
  {
    Divided(x, n);
    Quotients(x, n);
    if lo >= 0 {
      Divided(lo, n);
      if x + n <= lo { QuotientMono(x + n, lo, n); PlusOne(x, n); }
    }
    if hi >= 0 {
      if hi + n <= x { QuotientMono(hi + n, x, n); PlusOne(hi, n); }
    } else {
      Quotients(-hi, n);
    }
  }

  lemma PlusOne(a: nat, n: nat)
    requires n > 0
    ensures (a + n) / n == a / n + 1
  {
    Divided(a, n);
    assert (a / n + 1) * n == a / n * n + n;
    QuotientIs(a / n + 1, a % n, n);
  }

  /** What lies in the buckets of an area is less than a bucket away from it; only an area that ends less than a bucket
      before the map takes in the whole first row or column. */
  lemma AreaNear(area: Rectangle, v: Vec2, size: nat)
    requires size > 0 && v.x >= 0 && v.y >= 0 && BucketArea(area, size).Contains(Bucket(v, size))
    ensures area.left - size < v.x && area.top - size < v.y
    ensures if area.right > 0 then v.x < area.right - 1 + size else area.right - 1 > 0 - size && v.x < size
    ensures if area.bottom > 0 then v.y < area.bottom - 1 + size else area.bottom - 1 > 0 - size && v.y < size
  {
    TruncNear(area.left, v.x, area.right - 1, size);
    TruncNear(area.top, v.y, area.bottom - 1, size);
    Quotients(v.x, size);
    Quotients(v.y, size);
  }

  /** An element put into the index at a position. */
  datatype Placed = Placed(e: nat, pos: Vec2)

  function BucketOf(p: Placed, size: nat): Vec2
    requires size > 0
  {
    Bucket(p.pos, size)
  }

  /** The entries of an element in one bucket. */
  function Entries(placed: set<Placed>, e: nat, b: Vec2, size: nat): set<Placed>
    requires size > 0
  {
    set p | p in placed && p.e == e && BucketOf(p, size) == b
  }

  /** Every element has one position only. */
  ghost predicate OnePosition(placed: set<Placed>) {
    forall p, q :: p in placed && q in placed && p.e == q.e ==> p == q
  }

  class BucketMap {
    const size: Vec2
    const bucketSize: nat
    var buckets: map<Vec2, set<nat>>
    ghost var placed: set<Placed>

    function Bounds(): Rectangle
      requires bucketSize > 0
    {
      Rectangle(0, 0, TruncDiv(size.x + bucketSize - 1, bucketSize), TruncDiv(size.y + bucketSize - 1, bucketSize))
    }

    predicate OnMap(v: Vec2) {
      0 <= v.x < size.x && 0 <= v.y < size.y
    }

    /** A bucket holds exactly the elements placed in it, and no element is placed in it twice. */
    ghost predicate Valid()
      reads this
    {
      && bucketSize > 0
      && (forall b :: b in buckets <==> Bounds().Contains(b))
      && (forall p :: p in placed ==> OnMap(p.pos))
      && (forall b, e :: b in buckets ==> (e in buckets[b] <==> Entries(placed, e, b, bucketSize) != {}))
      && (forall p, q :: p in placed && q in placed && p.e == q.e && BucketOf(p, bucketSize) == BucketOf(q, bucketSize) ==>
            p == q)
    }

    constructor (size: Vec2, bucketSize: nat)
      requires bucketSize > 0
      ensures Valid() && this.size == size && this.bucketSize == bucketSize && placed == {}
    {
      this.size, this.bucketSize, placed := size, bucketSize, {};
      var bounds := Rectangle(0, 0, TruncDiv(size.x + bucketSize - 1, bucketSize),
                              TruncDiv(size.y + bucketSize - 1, bucketSize)).Squares();
      buckets := map b | b in bounds :: {};
      new;
      hide TruncDiv;
      forall b
        ensures b in buckets <==> Bounds().Contains(b)
      {
        assert b == Vec2(b.x, b.y);
      }
    }

    lemma BucketExists(v: Vec2)
      requires bucketSize > 0 && OnMap(v)
      ensures Bounds().Contains(Bucket(v, bucketSize))
    {
      RoundedUp(v.x, size.x, bucketSize);
      RoundedUp(v.y, size.y, bucketSize);
    }

    /** The element must not be in that bucket yet; it may be in another. */
    method AddElement(v: Vec2, e: nat)
      requires Valid() && OnMap(v) && Entries(placed, e, Bucket(v, bucketSize), bucketSize) == {}
      modifies this
      ensures Valid() && placed == old(placed) + {Placed(e, v)}
    {
      BucketExists(v);
      hide Bucket, Rectangle.Contains, Bounds;
      var b := Bucket(v, bucketSize);
      buckets := buckets[b := buckets[b] + {e}];
      ghost var was := placed;
      placed := placed + {Placed(e, v)};
      forall x, c
        ensures Entries(placed, x, c, bucketSize) == Entries(was, x, c, bucketSize) + if x == e && c == b then {Placed(e, v)} else {}
      {
      }
      assert forall p :: p in was && p.e == e && BucketOf(p, bucketSize) == b ==> p in Entries(was, e, b, bucketSize);
    }

    /** The element must be in that bucket, at whatever position. */
    method RemoveElement(v: Vec2, e: nat)
      requires Valid() && OnMap(v) && Entries(placed, e, Bucket(v, bucketSize), bucketSize) != {}
      modifies this
      ensures Valid() && placed == old(placed) - old(Entries(placed, e, Bucket(v, bucketSize), bucketSize))
    {
      BucketExists(v);
      hide Bucket, Rectangle.Contains, Bounds;
      var b := Bucket(v, bucketSize);
      buckets := buckets[b := buckets[b] - {e}];
      ghost var was := placed;
      placed := placed - Entries(placed, e, b, bucketSize);
      forall x, c
        ensures Entries(placed, x, c, bucketSize) == if x == e && c == b then {} else Entries(was, x, c, bucketSize)
      {
      }
    }

    method MoveElement(from: Vec2, to: Vec2, e: nat)
      requires Valid() && OnMap(from) && OnMap(to) && Entries(placed, e, Bucket(from, bucketSize), bucketSize) != {}
      requires Bucket(to, bucketSize) == Bucket(from, bucketSize) || Entries(placed, e, Bucket(to, bucketSize), bucketSize) == {}
      modifies this
      ensures Valid()
      ensures placed == old(placed) - old(Entries(placed, e, Bucket(from, bucketSize), bucketSize)) + {Placed(e, to)}
    {
      hide Bucket, Valid;
      RemoveElement(from, e);
      AddElement(to, e);
    }

    /** The entries of an element in the buckets that the area covers. */
    ghost function InArea(area: Rectangle, e: nat): set<Placed>
      requires bucketSize > 0
      reads this
    {
      set p | p in placed && p.e == e && BucketArea(area, bucketSize).Contains(BucketOf(p, bucketSize))
    }

    /** The elements of the buckets that the area covers, once for each bucket; among them every element in the area. */
    method GetElements(area: Rectangle) returns (ret: seq<nat>)
      requires Valid()
      ensures forall e :: e in ret <==> InArea(area, e) != {}
      ensures OnePosition(placed) ==> Distinct(ret)
      ensures forall p :: p in placed && area.Contains(p.pos) ==> p.e in ret
    {
      var all := set b | b in buckets && BucketArea(area, bucketSize).Contains(b);
      hide Bucket, BucketArea, Rectangle.Contains, Bounds;
      ret := Gather(all);
      forall e
        ensures e in ret <==> InArea(area, e) != {}
      {
        InBuckets(area, all, e);
      }
      forall p | p in placed && area.Contains(p.pos)
        ensures p.e in ret
      {
        AreaCovered(area, p.pos, bucketSize);
        assert p in InArea(area, p.e);
      }
    }

    /** The elements of several buckets. */
    method Gather(all: set<Vec2>) returns (ret: seq<nat>)
      requires Valid() && all <= buckets.Keys
      ensures forall e :: e in ret <==> exists b :: b in all && e in buckets[b]
      ensures OnePosition(placed) ==> Distinct(ret)
    {
      ret := [];
      var left := all;
      hide OnePosition, Distinct;
      assert Distinct(ret) by { NoneTwice(); }
      while left != {}
        invariant left <= all
        invariant forall e :: e in ret <==> exists b :: b in all - left && e in buckets[b]
        invariant OnePosition(placed) ==> Distinct(ret)
      {
        var b :| b in left;
        left := left - {b};
        var elems := Listing(buckets[b]);
        if OnePosition(placed) {
          OnlyHere(b, all - left - {b});
          JoinDistinct(ret, elems);
        }
        ret := ret + elems;
      }
    }

    /** The elements of one bucket, in some order. */
    static method Listing(bucket: set<nat>) returns (ret: seq<nat>)
      ensures Distinct(ret) && forall e :: e in ret <==> e in bucket
    {
      ret := [];
      var left := bucket;
      while left != {}
        invariant left <= bucket && Distinct(ret) && forall e :: e in ret <==> e in bucket - left
      {
        var e :| e in left;
        assert e !in ret;
        left := left - {e};
        ret := ret + [e];
      }
    }

    lemma OnlyHere(b: Vec2, others: set<Vec2>)
      requires Valid() && OnePosition(placed) && b in buckets && others <= buckets.Keys && b !in others
      ensures forall e, c :: e in buckets[b] && c in others ==> e !in buckets[c]
    {
      forall e, c | e in buckets[b] && c in others
        ensures e !in buckets[c]
      {
        var p :| p in Entries(placed, e, b, bucketSize);
        assert forall q :: q in placed && q.e == e ==> q == p;
      }
    }

    lemma InBuckets(area: Rectangle, all: set<Vec2>, e: nat)
      requires Valid() && forall b :: b in all <==> b in buckets && BucketArea(area, bucketSize).Contains(b)
      ensures InArea(area, e) != {} <==> exists b :: b in all && e in buckets[b]
    {
      if InArea(area, e) != {} {
        var p :| p in InArea(area, e);
        BucketExists(p.pos);
        assert p in Entries(placed, e, BucketOf(p, bucketSize), bucketSize);
      }
      if b :| b in all && e in buckets[b] {
        var p :| p in Entries(placed, e, b, bucketSize);
        assert p in InArea(area, e);
      }
    }
  }

  lemma NoneTwice()
    ensures Distinct<nat>([])
  {
  }

  lemma JoinDistinct(a: seq<nat>, b: seq<nat>)
    requires Distinct(a) && Distinct(b) && forall e :: e in b ==> e !in a
    ensures Distinct(a + b)
  {
    forall i, j | 0 <= i < j < |a + b|
      ensures (a + b)[i] != (a + b)[j]
    {
      if i < |a| <= j { assert b[j - |a|] in b; }
    }
  }

  lemma RoundedUp(x: nat, size: int, n: nat)
    requires n > 0 && x < size
    ensures 0 <= TruncDiv(x, n) < TruncDiv(size + n - 1, n)
  {
    Quotients(x, n);
    QuotientMono(x + n, size + n - 1, n);
    PlusOne(x, n);
  }
}
