/** The least-recently-used cache of call results, over a hash map and an ordered two-way map of time stamps. */
module CallCaching {
  import opened Collections

  /** The id of the call and the hash of its arguments. */
  datatype Key = Key(id: int, hash: int)

  // ----- recency lists

  function Without(s: seq<Key>, k: Key): seq<Key> {
    if s == [] then [] else (if s[0] == k then [] else [s[0]]) + Without(s[1..], k)
  }

  /** The keys in use order, least recent first, after k is used. */
  function Used(order: seq<Key>, k: Key, maxSize: nat): seq<Key> {
    if k in order then Without(order, k) + [k]
    else (if |order| >= maxSize && order != [] then order[1..] else order) + [k]
  }

  /** The keys of a cache after a run of calls. */
  function RunOrder(ks: seq<Key>, maxSize: nat): seq<Key> {
    if ks == [] then [] else Used(RunOrder(ks[..|ks| - 1], maxSize), ks[|ks| - 1], maxSize)
  }

  lemma {:induction false} WithoutIs(s: seq<Key>, k: Key)
    requires Distinct(s)
    ensures Distinct(Without(s, k)) && forall x :: x in Without(s, k) <==> x in s && x != k
    ensures |Without(s, k)| == if k in s then |s| - 1 else |s|
    ensures k !in s ==> Without(s, k) == s
  {
    if s != [] {
      WithoutIs(s[1..], k);
      assert s[0] !in s[1..];
      assert forall x :: x in s <==> x == s[0] || x in s[1..];
    }
  }

  lemma {:induction false} WithoutConcat(a: seq<Key>, b: seq<Key>, k: Key)
    ensures Without(a + b, k) == Without(a, k) + Without(b, k)
  {
    if a == [] {
      assert a + b == b;
    } else {
      assert (a + b)[1..] == a[1..] + b;
      WithoutConcat(a[1..], b, k);
    }
  }

  // ----- the keys used last

  /** All keys of a run, in the order of their last use. */
  function Recent(ks: seq<Key>): seq<Key> {
    if ks == [] then [] else Without(Recent(ks[..|ks| - 1]), ks[|ks| - 1]) + [ks[|ks| - 1]]
  }

  /** The last n elements. */
  function Last(s: seq<Key>, n: nat): seq<Key> {
    if |s| <= n then s else s[|s| - n..]
  }

  lemma {:induction false} RecentIs(ks: seq<Key>)
    ensures Distinct(Recent(ks)) && forall k :: k in Recent(ks) <==> k in ks
  {
    if ks != [] {
      var rest, k := ks[..|ks| - 1], ks[|ks| - 1];
      RecentIs(rest);
      WithoutIs(Recent(rest), k);
      assert ks == rest + [k];
    }
  }

  /** The place of the last use. */
  function LastUse(ks: seq<Key>, k: Key): (i: nat)
    requires k in ks
    ensures i < |ks| && ks[i] == k && k !in ks[i + 1..]
  {
    if ks[|ks| - 1] == k then |ks| - 1
    else
      var rest := ks[..|ks| - 1];
      assert ks == rest + [ks[|ks| - 1]];
      var i := LastUse(rest, k);
      assert ks[i + 1..] == rest[i + 1..] + [ks[|ks| - 1]];
      i
  }

  lemma {:induction false} WithoutOrder(s: seq<Key>, k: Key, i: nat, j: nat)
    requires i < j < |Without(s, k)|
    ensures exists a, b :: 0 <= a < b < |s| && s[a] == Without(s, k)[i] && s[b] == Without(s, k)[j]
  {
    if s[0] == k {
      WithoutOrder(s[1..], k, i, j);
      var a, b :| 0 <= a < b < |s[1..]| && s[1..][a] == Without(s[1..], k)[i] && s[1..][b] == Without(s[1..], k)[j];
      assert s[a + 1] == Without(s, k)[i] && s[b + 1] == Without(s, k)[j];
    } else if i == 0 {
      WithoutFrom(s[1..], k, j - 1);
      var b :| 0 <= b < |s[1..]| && s[1..][b] == Without(s[1..], k)[j - 1];
      assert s[0] == Without(s, k)[0] && s[b + 1] == Without(s, k)[j];
    } else {
      WithoutOrder(s[1..], k, i - 1, j - 1);
      var a, b :| 0 <= a < b < |s[1..]| && s[1..][a] == Without(s[1..], k)[i - 1] && s[1..][b] == Without(s[1..], k)[j - 1];
      assert s[a + 1] == Without(s, k)[i] && s[b + 1] == Without(s, k)[j];
    }
  }

  lemma {:induction false} WithoutFrom(s: seq<Key>, k: Key, j: nat)
    requires j < |Without(s, k)|
    ensures exists b :: 0 <= b < |s| && s[b] == Without(s, k)[j]
  {
    if s[0] == k {
      WithoutFrom(s[1..], k, j);
      var b :| 0 <= b < |s[1..]| && s[1..][b] == Without(s[1..], k)[j];
      assert s[b + 1] == Without(s, k)[j];
    } else if j == 0 {
      assert s[0] == Without(s, k)[0];
    } else {
      WithoutFrom(s[1..], k, j - 1);
      var b :| 0 <= b < |s[1..]| && s[1..][b] == Without(s[1..], k)[j - 1];
      assert s[b + 1] == Without(s, k)[j];
    }
  }

  /** The recency list is ordered by last use. */
  lemma {:induction false} RecentOrdered(ks: seq<Key>, i: nat, j: nat)
    requires i < j < |Recent(ks)|
    ensures Recent(ks)[i] in ks && Recent(ks)[j] in ks
    ensures LastUse(ks, Recent(ks)[i]) < LastUse(ks, Recent(ks)[j])
  {
    RecentIs(ks);
    var rest, k := ks[..|ks| - 1], ks[|ks| - 1];
    var r := Recent(rest);
    assert ks == rest + [k];
    RecentIs(rest);
    WithoutIs(r, k);
    assert Recent(ks)[i] in Without(r, k);
    if j < |Recent(ks)| - 1 {
      WithoutOrder(r, k, i, j);
      var a, b :| 0 <= a < b < |r| && r[a] == Without(r, k)[i] && r[b] == Without(r, k)[j];
      RecentOrdered(rest, a, b);
      assert Recent(ks)[j] in Without(r, k);
    }
  }

  lemma LastOf(s: seq<Key>, n: nat) returns (p: seq<Key>)
    ensures s == p + Last(s, n) && (|Last(s, n)| == n || (|Last(s, n)| < n && p == []))
  {
    p := if |s| <= n then [] else s[..|s| - n];
  }

  lemma LastConcat(p: seq<Key>, s: seq<Key>, n: nat)
    requires |s| == n || (|s| < n && p == [])
    ensures Last(p + s, n) == s
  {
  }

  /** Using k in the last n keys, p being the keys before them. */
  lemma UseParts(p: seq<Key>, s: seq<Key>, k: Key, n: nat)
    requires n >= 1 && Distinct(p + s) && (|s| == n || (|s| < n && p == []))
    ensures Used(s, k, n) == Last(Without(p + s, k) + [k], n)
  {
    hide Without, Last;
    WithoutConcat(p, s, k);
    DistinctParts(p, s);
    WithoutIs(s, k);
    WithoutIs(p, k);
    if k in s {
      assert Without(p + s, k) + [k] == p + (Without(s, k) + [k]);
      LastConcat(p, Without(s, k) + [k], n);
    } else if |s| < n {
      assert Without(p + s, k) + [k] == Without(p, k) + (s + [k]);
      LastConcat(Without(p, k), s + [k], n);
    } else {
      assert Without(p + s, k) + [k] == (Without(p, k) + [s[0]]) + (s[1..] + [k]);
      LastConcat(Without(p, k) + [s[0]], s[1..] + [k], n);
    }
  }

  /** After any run of calls the cache holds exactly the maxSize keys used last. */
  lemma {:induction false} KeepsMostRecent(ks: seq<Key>, maxSize: nat)
    requires maxSize >= 1
    ensures RunOrder(ks, maxSize) == Last(Recent(ks), maxSize)
  {
    if ks != [] {
      hide Used, Without, Last;
      var rest, k := ks[..|ks| - 1], ks[|ks| - 1];
      var r := Recent(rest);
      KeepsMostRecent(rest, maxSize);
      RecentIs(rest);
      var p := LastOf(r, maxSize);
      UseParts(p, Last(r, maxSize), k, maxSize);
    }
  }

  lemma DistinctParts(p: seq<Key>, s: seq<Key>)
    requires Distinct(p + s)
    ensures Distinct(p) && Distinct(s) && forall k :: k in p ==> k !in s
  {
    assert forall i :: 0 <= i < |p| ==> (p + s)[i] == p[i];
    assert forall i :: 0 <= i < |s| ==> (p + s)[|p| + i] == s[i];
  }

  // ----- time stamps

  /** The stamps increase along the list. */
  ghost predicate Stamped(order: seq<Key>, m: map<Key, int>) {
    && (forall k :: k in order ==> k in m)
    && (forall i, j :: 0 <= i < j < |order| ==> m[order[i]] < m[order[j]])
  }

  lemma WithoutStamped(order: seq<Key>, m: map<Key, int>, k: Key)
    requires Stamped(order, m) && Distinct(order)
    ensures Stamped(Without(order, k), m)
  {
    WithoutIs(order, k);
    var r := Without(order, k);
    forall x | x in r
      ensures x in m
    {
    }
    forall i, j | 0 <= i < j < |r|
      ensures m[r[i]] < m[r[j]]
    {
      WithoutOrder(order, k, i, j);
      var a, b :| 0 <= a < b < |order| && order[a] == r[i] && order[b] == r[j];
    }
  }

  /** A new greatest stamp goes to the end. */
  lemma StampNext(order: seq<Key>, m: map<Key, int>, m': map<Key, int>, k: Key, v: int)
    requires Stamped(order, m) && k !in order && (forall x :: x in order ==> m[x] < v)
    requires k in m' && m'[k] == v && forall x :: x in order ==> x in m' && m'[x] == m[x]
    ensures Stamped(order + [k], m')
  {
  }

  lemma {:induction false} SizeOf(order: seq<Key>, keys: set<Key>)
    requires Distinct(order) && forall k :: k in order <==> k in keys
    ensures |order| == |keys|
  {
    if order != [] {
      assert order[0] !in order[1..];
      SizeOf(order[1..], keys - {order[0]});
    }
  }

  lemma DistinctNext(order: seq<Key>, k: Key)
    requires Distinct(order) && k !in order
    ensures Distinct(order + [k])
  {
  }

  /** The books of the cache: the keys in use order, their stamps, and the counter the stamps come from. */
  ghost predicate Kept(order: seq<Key>, keys: set<Key>, m: map<Key, int>, cnt: int, maxSize: nat) {
    && keys == m.Keys && Distinct(order) && (forall k :: k in order <==> k in keys) && |order| <= maxSize
    && (forall k :: k in m ==> m[k] <= cnt) && Stamped(order, m)
  }

  lemma KeptTouch(order: seq<Key>, keys: set<Key>, m: map<Key, int>, cnt: int, maxSize: nat, k: Key)
    requires Kept(order, keys, m, cnt, maxSize) && k in keys
    ensures Kept(Without(order, k) + [k], keys, (m - {k})[k := cnt + 1], cnt + 1, maxSize)
  {
    hide Without, Stamped, Distinct;
    WithoutStamped(order, m, k);
    WithoutIs(order, k);
    StampNext(Without(order, k), m, (m - {k})[k := cnt + 1], k, cnt + 1);
    DistinctNext(Without(order, k), k);
  }

  lemma KeptEvict(order: seq<Key>, keys: set<Key>, m: map<Key, int>, cnt: int, maxSize: nat, lru: Key)
    requires Kept(order, keys, m, cnt, maxSize) && lru in keys && forall x :: x in m ==> m[lru] <= m[x]
    ensures order != [] && order[0] == lru && Kept(order[1..], keys - {lru}, m - {lru}, cnt, maxSize)
  {
  }

  lemma KeptInsert(order: seq<Key>, keys: set<Key>, m: map<Key, int>, cnt: int, maxSize: nat, k: Key)
    requires Kept(order, keys, m, cnt, maxSize) && k !in keys && |order| < maxSize
    ensures Kept(order + [k], keys + {k}, m[k := cnt + 1], cnt + 1, maxSize)
  {
  }

  lemma KeptSize(order: seq<Key>, keys: set<Key>, m: map<Key, int>, cnt: int, maxSize: nat)
    requires Kept(order, keys, m, cnt, maxSize)
    ensures |order| == |keys| && |order| <= maxSize && (forall k :: k in order <==> k in keys)
    ensures forall k :: k in m ==> m[k] <= cnt
  {
    SizeOf(order, keys);
  }

  // ----- results

  /** A call by its key, with what its generator gives. */
  datatype Call<Value> = Call(key: Key, generated: Value)

  /** The cached keys in use order, and their values. */
  datatype Contents<Value> = Contents(order: seq<Key>, values: map<Key, Value>)

  function Answer<Value>(c: Contents<Value>, call: Call<Value>): Value {
    if call.key in c.values then c.values[call.key] else call.generated
  }

  /** The contents after a call: what is not among the keys used last is gone. */
  function After<Value>(c: Contents<Value>, call: Call<Value>, maxSize: nat): Contents<Value> {
    var order := Used(c.order, call.key, maxSize);
    Contents(order, map k | k in order && (k == call.key || k in c.values) ::
                      if k == call.key then Answer(c, call) else c.values[k])
  }

  function RunContents<Value>(calls: seq<Call<Value>>, maxSize: nat): Contents<Value> {
    if calls == [] then Contents([], map[])
    else After(RunContents(calls[..|calls| - 1], maxSize), calls[|calls| - 1], maxSize)
  }

  /** What the i-th call of a run returns. */
  function Returned<Value>(calls: seq<Call<Value>>, maxSize: nat, i: nat): Value
    requires i < |calls|
  {
    Answer(RunContents(calls[..i], maxSize), calls[i])
  }

  /** The key that was just used is cached. */
  lemma JustUsed<Value>(c: Contents<Value>, call: Call<Value>, maxSize: nat)
    ensures call.key in After(c, call, maxSize).values && After(c, call, maxSize).values[call.key] == Answer(c, call)
  {
    var order := Used(c.order, call.key, maxSize);
    assert order[|order| - 1] == call.key;
  }

  /** The order of the contents is the order of the keys alone, and exactly these keys have values. */
  lemma {:induction false} RunKeys<Value>(calls: seq<Call<Value>>, ks: seq<Key>, maxSize: nat)
    requires |ks| == |calls| && (forall i :: 0 <= i < |ks| ==> ks[i] == calls[i].key) && maxSize >= 1
    ensures RunContents(calls, maxSize).order == RunOrder(ks, maxSize)
    ensures forall k :: k in RunContents(calls, maxSize).values <==> k in RunOrder(ks, maxSize)
  {
    if calls != [] {
      var n := |calls| - 1;
      RunKeys(calls[..n], ks[..n], maxSize);
      var order := RunOrder(ks[..n], maxSize);
      UsedFrom(order, ks[n], maxSize);
    }
  }

  /** Using a key brings in no other key. */
  lemma UsedFrom(order: seq<Key>, key: Key, maxSize: nat)
    ensures forall k :: k in Used(order, key, maxSize) ==> k == key || k in order
  {
    WithoutFewer(order, key);
  }

  lemma {:induction false} WithoutFewer(s: seq<Key>, k: Key)
    ensures forall x :: x in Without(s, k) ==> x in s
  {
    if s != [] { WithoutFewer(s[1..], k); }
  }

  // ----- whose result a call returns

  /** The keys of a run of calls. */
  function Keys<Value>(calls: seq<Call<Value>>): (ks: seq<Key>)
    ensures |ks| == |calls|
  {
    seq(|calls|, i requires 0 <= i < |calls| => calls[i].key)
  }

  /** The keys used after place j and before place i. */
  ghost function Between(ks: seq<Key>, j: nat, i: nat): set<Key>
    requires i <= |ks|
  {
    set l | j < l < i :: ks[l]
  }

  /** Place j is the last use of the key before place i, and fewer than maxSize keys are used between the two. */
  ghost predicate Hit(ks: seq<Key>, maxSize: nat, j: nat, i: nat) {
    j < i < |ks| && ks[j] == ks[i] && ks[i] !in Between(ks, j, i) && |Between(ks, j, i)| < maxSize
  }

  /** In the recency list a key is followed by exactly the keys used after it. */
  lemma {:induction false} RecentAround(a: seq<Key>, k: Key, b: seq<Key>) returns (p: seq<Key>)
    requires k !in b
    ensures Recent(a + [k] + b) == p + [k] + Recent(b)
  {
    var ks, n := a + [k] + b, |a + [k] + b| - 1;
    if b == [] {
      assert ks[..n] == a;
      p := Without(Recent(a), k);
    } else {
      var rest, x := b[..|b| - 1], b[|b| - 1];
      assert b == rest + [x];
      assert ks[..n] == a + [k] + rest && ks[n] == x;
      var q := RecentAround(a, k, rest);
      WithoutConcat(q + [k], Recent(rest), x);
      WithoutConcat(q, [k], x);
      p := Without(q, x);
    }
  }

  /** So a key is cached exactly if fewer than maxSize keys are used after it. */
  lemma CachedWhile(ks: seq<Key>, j: nat, maxSize: nat)
    requires j < |ks| && ks[j] !in Between(ks, j, |ks|) && maxSize >= 1
    ensures ks[j] in RunOrder(ks, maxSize) <==> |Between(ks, j, |ks|)| < maxSize
  {
    hide Recent, Without, RunOrder;
    var b := ks[j + 1..];
    assert forall k :: k in b <==> k in Between(ks, j, |ks|) by {
      assert forall l :: 0 <= l < |b| ==> b[l] == ks[j + 1 + l] && j < j + 1 + l;
      assert forall l :: j < l < |ks| ==> ks[l] == b[l - j - 1];
    }
    assert ks == ks[..j] + [ks[j]] + b;
    var p := RecentAround(ks[..j], ks[j], b);
    KeepsMostRecent(ks, maxSize);
    RecentIs(b);
    SizeOf(Recent(b), Between(ks, j, |ks|));
    AmongLast(p, ks[j], Recent(b), maxSize);
  }

  lemma AmongLast(p: seq<Key>, k: Key, s: seq<Key>, n: nat)
    requires k !in s
    ensures k in Last(p + [k] + s, n) <==> |s| < n
  {
    var all := p + [k] + s;
    if |s| < n {
      assert all[|p|] == k && Last(all, n)[|p| - (|all| - |Last(all, n)|)] == k;
    } else {
      assert forall x :: x in Last(all, n) ==> x in s;
    }
  }

  lemma BetweenPrefix(ks: seq<Key>, m: nat, j: nat, i: nat)
    requires i <= m <= |ks|
    ensures Between(ks[..m], j, i) == Between(ks, j, i)
  {
  }

  lemma BetweenNext(ks: seq<Key>, j: nat, i: nat)
    requires j < i < |ks|
    ensures Between(ks, j, i + 1) == Between(ks, j, i) + {ks[i]}
  {
  }

  lemma KeyAt<Value>(calls: seq<Call<Value>>, i: nat)
    requires i < |calls|
    ensures |Keys(calls)| == |calls| && Keys(calls)[i] == calls[i].key
  {
  }

  lemma KeysPrefix<Value>(calls: seq<Call<Value>>, m: nat)
    requires m <= |calls|
    ensures Keys(calls[..m]) == Keys(calls)[..m]
  {
  }

  /** What is cached for a key is what its last call returned. */
  lemma {:induction false} CachedIsReturned<Value>(calls: seq<Call<Value>>, maxSize: nat, j: nat)
    requires j < |calls| && calls[j].key !in Between(Keys(calls), j, |calls|)
    requires calls[j].key in RunContents(calls, maxSize).values
    ensures RunContents(calls, maxSize).values[calls[j].key] == Returned(calls, maxSize, j)
  {
    var n := |calls| - 1;
    var c := RunContents(calls[..n], maxSize);
    assert calls[..n][..j] == calls[..j];
    if j == n {
      JustUsed(c, calls[n], maxSize);
    } else {
      hide Keys, Between, Used;
      KeysPrefix(calls, n);
      BetweenPrefix(Keys(calls), n, j, n);
      BetweenNext(Keys(calls), j, n);
      assert Keys(calls)[n] == calls[n].key by { KeyAt(calls, n); }
      CachedIsReturned(calls[..n], maxSize, j);
    }
  }

  /** The i-th call finds its key cached exactly if it is a hit. */
  lemma CachedIsHit<Value>(calls: seq<Call<Value>>, maxSize: nat, i: nat)
    requires i < |calls| && maxSize >= 1
    ensures calls[i].key in RunContents(calls[..i], maxSize).values <==> exists j :: Hit(Keys(calls), maxSize, j, i)
  {
    hide RunContents, RunOrder;
    var ks := Keys(calls);
    KeysPrefix(calls, i);
    RunKeys(calls[..i], ks[..i], maxSize);
    OrderedIsHit(ks, maxSize, i);
  }

  lemma OrderedIsHit(ks: seq<Key>, maxSize: nat, i: nat)
    requires i < |ks| && maxSize >= 1
    ensures ks[i] in RunOrder(ks[..i], maxSize) <==> exists j :: Hit(ks, maxSize, j, i)
  {
    hide RunOrder;
    forall j | Hit(ks, maxSize, j, i)
      ensures ks[i] in RunOrder(ks[..i], maxSize)
    {
      BetweenPrefix(ks, i, j, i);
      hide Between;
      CachedWhile(ks[..i], j, maxSize);
    }
    if ks[i] in RunOrder(ks[..i], maxSize) {
      OrderFrom(ks[..i], maxSize);
      var j := LastUse(ks[..i], ks[i]);
      LastBetween(ks, i, j);
      BetweenPrefix(ks, i, j, i);
      hide Between;
      CachedWhile(ks[..i], j, maxSize);
      assert Hit(ks, maxSize, j, i);
    }
  }

  lemma LastBetween(ks: seq<Key>, i: nat, j: nat)
    requires j < i < |ks| && ks[i] !in ks[..i][j + 1..]
    ensures ks[i] !in Between(ks, j, i)
  {
    assert forall l :: j < l < i ==> ks[l] == ks[..i][j + 1..][l - j - 1];
  }

  lemma {:induction false} OrderFrom(ks: seq<Key>, maxSize: nat)
    ensures forall k :: k in RunOrder(ks, maxSize) ==> k in ks
  {
    if ks != [] {
      var n := |ks| - 1;
      OrderFrom(ks[..n], maxSize);
      UsedFrom(RunOrder(ks[..n], maxSize), ks[n], maxSize);
    }
  }

  /** A hit returns what the call it hits returned. */
  lemma HitReturns<Value>(calls: seq<Call<Value>>, maxSize: nat, j: nat, i: nat)
    requires maxSize >= 1 && Hit(Keys(calls), maxSize, j, i)
    ensures Returned(calls, maxSize, i) == Returned(calls, maxSize, j)
  {
    hide RunContents, Keys, Between;
    KeyAt(calls, j);
    CachedIsHit(calls, maxSize, i);
    KeysPrefix(calls, i);
    BetweenPrefix(Keys(calls), i, j, i);
    KeyAt(calls, i);
    assert calls[..i][..j] == calls[..j];
    CachedIsReturned(calls[..i], maxSize, j);
  }

  /** The call whose generator gives the result of the i-th call: the one at the start of its chain of hits. */
  ghost function Origin(ks: seq<Key>, maxSize: nat, i: nat): (o: nat)
    requires i < |ks|
    ensures o <= i && ks[o] == ks[i]
  {
    if j :| Hit(ks, maxSize, j, i) then Origin(ks, maxSize, j) else i
  }

  /** Which call's value a call returns depends on the keys alone. */
  lemma {:induction false} ReturnsOrigin<Value>(calls: seq<Call<Value>>, maxSize: nat, i: nat)
    requires i < |calls| && maxSize >= 1
    ensures Returned(calls, maxSize, i) == calls[Origin(Keys(calls), maxSize, i)].generated
    decreases i
  {
    hide RunContents, Keys, Between;
    var ks := Keys(calls);
    CachedIsHit(calls, maxSize, i);
    if exists j :: Hit(ks, maxSize, j, i) {
      var j :| Hit(ks, maxSize, j, i) && Origin(ks, maxSize, i) == Origin(ks, maxSize, j);
      HitReturns(calls, maxSize, j, i);
      ReturnsOrigin(calls, maxSize, j);
    }
  }

  /** If every hit generates what the call it hits generates, so does every call and its origin. */
  lemma {:induction false} OriginAgrees<Value>(calls: seq<Call<Value>>, maxSize: nat, i: nat)
    requires i < |calls|
    requires forall j: nat, i: nat :: Hit(Keys(calls), maxSize, j, i) ==> calls[j].generated == calls[i].generated
    ensures calls[Origin(Keys(calls), maxSize, i)].generated == calls[i].generated
    decreases i
  {
    hide Keys, Between;
    var ks := Keys(calls);
    if exists j :: Hit(ks, maxSize, j, i) {
      var j :| Hit(ks, maxSize, j, i) && Origin(ks, maxSize, i) == Origin(ks, maxSize, j);
      OriginAgrees(calls, maxSize, j);
    }
  }

  /** In a run every call returns what its own generator gives exactly if every hit generates what the call it hits
      generates. */
  lemma ResultsExact<Value>(calls: seq<Call<Value>>, maxSize: nat)
    requires maxSize >= 1
    ensures (forall i :: 0 <= i < |calls| ==> Returned(calls, maxSize, i) == calls[i].generated)
            <==> forall j: nat, i: nat :: Hit(Keys(calls), maxSize, j, i) ==> calls[j].generated == calls[i].generated
  {
    hide Returned, Keys, Between, Origin;
    forall j: nat, i: nat | Hit(Keys(calls), maxSize, j, i)
      ensures Returned(calls, maxSize, i) == Returned(calls, maxSize, j)
    {
      HitReturns(calls, maxSize, j, i);
    }
    if forall j: nat, i: nat :: Hit(Keys(calls), maxSize, j, i) ==> calls[j].generated == calls[i].generated {
      forall i | 0 <= i < |calls|
        ensures Returned(calls, maxSize, i) == calls[i].generated
      {
        OriginAgrees(calls, maxSize, i);
        ReturnsOrigin(calls, maxSize, i);
      }
    }
  }

  /** A cached value is what an earlier call with the same key generated. */
  lemma {:induction false} CachedFrom<Value>(calls: seq<Call<Value>>, maxSize: nat, key: Key) returns (j: nat)
    requires key in RunContents(calls, maxSize).values
    ensures j < |calls| && calls[j].key == key && RunContents(calls, maxSize).values[key] == calls[j].generated
  {
    var n := |calls| - 1;
    var c := RunContents(calls[..n], maxSize);
    if key == calls[n].key && key !in c.values {
      JustUsed(c, calls[n], maxSize);
      j := n;
    } else {
      if key == calls[n].key { JustUsed(c, calls[n], maxSize); }
      j := CachedFrom(calls[..n], maxSize, key);
    }
  }

  /** So it is in every run in which calls with the same key generate the same value. */
  lemma NoCollisions<Value>(calls: seq<Call<Value>>, maxSize: nat, i: nat)
    requires i < |calls| && forall a, b :: 0 <= a < |calls| && 0 <= b < |calls| && calls[a].key == calls[b].key ==>
                              calls[a].generated == calls[b].generated
    ensures Returned(calls, maxSize, i) == calls[i].generated
  {
    if calls[i].key in RunContents(calls[..i], maxSize).values {
      var j := CachedFrom(calls[..i], maxSize, calls[i].key);
      assert calls[..i][j] == calls[j];
    }
  }

  /** Two calls in a row with the same key both return the first value: the second is a hit. */
  lemma Collision<Value>(before: seq<Call<Value>>, c: Call<Value>, d: Call<Value>, maxSize: nat)
    requires c.key == d.key
    ensures Returned(before + [c, d], maxSize, |before| + 1) == Returned(before + [c, d], maxSize, |before|)
    ensures c.generated != d.generated ==> Returned(before + [c, d], maxSize, |before|) != c.generated
                                           || Returned(before + [c, d], maxSize, |before| + 1) != d.generated
  {
    var calls := before + [c, d];
    var n := |before|;
    assert calls[..n + 1][..n] == calls[..n];
    JustUsed(RunContents(calls[..n], maxSize), c, maxSize);
  }

  /** In figures: the second of two calls with one key returns the value of the first, unless another key has pushed it
      out. */
  lemma CollisionRuns<Value>(k: Key, k': Key, u: Value, v: Value, w: Value)
    requires k != k'
    ensures Returned([Call(k, v), Call(k, w)], 1, 1) == v
    ensures Returned([Call(k, v), Call(k', u), Call(k, w)], 1, 2) == w
  {
    Collision([], Call(k, v), Call(k, w), 1);
    var calls := [Call(k, v), Call(k', u), Call(k, w)];
    hide RunContents;
    CachedIsHit(calls, 1, 2);
    assert Keys(calls)[1] in Between(Keys(calls), 0, 2);
    assert calls[2].key !in RunContents(calls[..2], 1).values;
  }

  // ----- the two-way map

  class BiMap {
    var m1: map<Key, int>
    var m2: map<int, Key>

    ghost predicate Valid()
      reads this
    {
      && (forall k :: k in m1 ==> m1[k] in m2 && m2[m1[k]] == k)
      && (forall v :: v in m2 ==> m2[v] in m1 && m1[m2[v]] == v)
    }

    constructor ()
      ensures Valid() && m1 == map[]
    {
      m1, m2 := map[], map[];
    }

    method Insert(k: Key, v: int)
      requires Valid() && k !in m1 && v !in m2
      modifies this
      ensures Valid() && m1 == old(m1)[k := v]
    {
      m1 := m1[k := v];
      m2 := m2[v := k];
    }

    method Erase(k: Key)
      requires Valid()
      modifies this
      ensures Valid() && m1 == old(m1) - {k}
    {
      if k in m1 {
        m2 := m2 - {m1[k]};
        m1 := m1 - {k};
      }
    }

    method EraseValue(v: int)
      requires Valid()
      modifies this
      ensures Valid() && m1 == if v in old(m2) then old(m1) - {old(m2)[v]} else old(m1)
    {
      if v in m2 {
        m1 := m1 - {m2[v]};
        m2 := m2 - {v};
      }
    }

    /** The pair with the smallest value. */
    method GetFront2() returns (v: int, k: Key)
      requires Valid() && m1 != map[]
      ensures k in m1 && m1[k] == v && v in m2 && m2[v] == k
      ensures forall x :: x in m1 ==> v <= m1[x]
    {
      var some :| some in m1;
      v := m1[some];
      var todo := m1.Keys;
      while todo != {}
        invariant todo <= m1.Keys && v in m2
        invariant forall x :: x in m1 && x !in todo ==> v <= m1[x]
        decreases todo
      {
        var x :| x in todo;
        if m1[x] < v { v := m1[x]; }
        todo := todo - {x};
      }
      k := m2[v];
    }
  }

  // ----- the cache

  class CallCache<Value> {
    const maxSize: nat
    const lastUsed: BiMap
    var cache: map<Key, Value>
    var cnt: int
    /** The cached keys in use order, least recent first. */
    ghost var order: seq<Key>

    ghost predicate Valid()
      reads this, lastUsed
    {
      maxSize >= 1 && lastUsed.Valid() && Kept(order, cache.Keys, lastUsed.m1, cnt, maxSize)
    }

    constructor (maxSize: nat)
      requires maxSize >= 1
      ensures Valid() && fresh(lastUsed) && this.maxSize == maxSize && cache == map[] && order == []
    {
      this.maxSize, cache, cnt, order := maxSize, map[], 0, [];
      lastUsed := new BiMap();
    }

    method Get<Args>(gen: Args -> Value, hash: Args -> int, id: int, args: Args) returns (r: Value)
      requires Valid()
      modifies this, lastUsed
      ensures Valid()
      ensures var key := Key(id, hash(args));
              var before, call := Contents(old(order), old(cache)), Call(key, gen(args));
              Contents(order, cache) == After(before, call, maxSize) && r == Answer(before, call)
    {
      hide Kept, Used;
      var key := Key(id, hash(args));
      if key in cache {
        Touch(key);
        r := cache[key];
      } else {
        r := gen(args);
        InsertValue(key, r);
      }
      CachedAre(this);
    }

    /** A hit: the key becomes the most recent one. */
    method Touch(key: Key)
      requires Valid() && key in cache
      modifies this`cnt, this`order, lastUsed
      ensures Valid() && order == Used(old(order), key, maxSize)
    {
      hide Kept, Without;
      KeptTouch(order, cache.Keys, lastUsed.m1, cnt, maxSize, key);
      KeptSize(order, cache.Keys, lastUsed.m1, cnt, maxSize);
      NewStamp(lastUsed, cnt);
      lastUsed.Erase(key);
      cnt := cnt + 1;
      lastUsed.Insert(key, cnt);
      order := Without(order, key) + [key];
    }

    /** The least recent key makes room. */
    method Evict()
      requires Valid() && cache != map[]
      modifies this`cache, this`order, lastUsed
      ensures Valid() && order == old(order)[1..] && |order| == |old(order)| - 1
      ensures cache == old(cache) - {old(order)[0]}
    {
      hide Kept;
      KeptSize(order, cache.Keys, lastUsed.m1, cnt, maxSize);
      KeptKeys(order, cache.Keys, lastUsed.m1, cnt, maxSize);
      var stamp, lru := lastUsed.GetFront2();
      KeptEvict(order, cache.Keys, lastUsed.m1, cnt, maxSize, lru);
      lastUsed.EraseValue(stamp);
      assert (cache - {lru}).Keys == cache.Keys - {lru};
      cache := cache - {lru};
      order := order[1..];
    }

    /** A miss. */
    method InsertValue(key: Key, value: Value)
      requires Valid() && key !in cache
      modifies this, lastUsed
      ensures Valid() && order == Used(old(order), key, maxSize)
      ensures key in cache && cache[key] == value
      ensures forall k :: k in cache && k != key ==> k in old(cache) && cache[k] == old(cache)[k]
    {
      hide Kept, Without;
      KeptSize(order, cache.Keys, lastUsed.m1, cnt, maxSize);
      assert |cache| == |cache.Keys|;
      if |cache| >= maxSize { Evict(); }
      Append(key, value);
    }

    /** The new key becomes the most recent one. */
    method Append(key: Key, value: Value)
      requires Valid() && key !in cache && |order| < maxSize
      modifies this, lastUsed
      ensures Valid() && order == old(order) + [key] && cache == old(cache)[key := value]
    {
      hide Kept;
      KeptKeys(order, cache.Keys, lastUsed.m1, cnt, maxSize);
      KeptInsert(order, cache.Keys, lastUsed.m1, cnt, maxSize, key);
      KeptSize(order, cache.Keys, lastUsed.m1, cnt, maxSize);
      NewStamp(lastUsed, cnt);
      // the code's test for a stale stamp of key never succeeds: the two maps have the same keys
      assert key !in lastUsed.m1;
      cnt := cnt + 1;
      lastUsed.Insert(key, cnt);
      assert cache[key := value].Keys == cache.Keys + {key};
      cache := cache[key := value];
      order := order + [key];
    }
  }

  lemma CachedAre<Value>(c: CallCache<Value>)
    requires c.Valid()
    ensures forall k :: k in c.order <==> k in c.cache
  {
    KeptSize(c.order, c.cache.Keys, c.lastUsed.m1, c.cnt, c.maxSize);
  }

  lemma KeptKeys(order: seq<Key>, keys: set<Key>, m: map<Key, int>, cnt: int, maxSize: nat)
    requires Kept(order, keys, m, cnt, maxSize)
    ensures keys == m.Keys
  {
  }

  /** The next stamp is not in use. */
  lemma NewStamp(b: BiMap, cnt: int)
    requires b.Valid() && forall k :: k in b.m1 ==> b.m1[k] <= cnt
    ensures cnt + 1 !in b.m2
  {
  }
}
