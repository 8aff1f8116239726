/** Counting the entries of a table that satisfy a predicate. */
module Counting {
  import opened Types

  ghost function Selected<K, V>(m: map<K, V>, p: (K, V) -> bool): set<K> {
    set k | k in m && p(k, m[k])
  }

  ghost function Count<K, V>(m: map<K, V>, p: (K, V) -> bool): nat {
    |Selected(m, p)|
  }

  lemma CountPut<K, V>(m: map<K, V>, k: K, v: V, p: (K, V) -> bool)
    ensures Count(m[k := v], p) + (if k in m && p(k, m[k]) then 1 else 0) == Count(m, p) + (if p(k, v) then 1 else 0)
  {
    var rest := Selected(m, p) - {k};
    assert Selected(m, p) == if k in m && p(k, m[k]) then rest + {k} else rest;
    assert Selected(m[k := v], p) == if p(k, v) then rest + {k} else rest;
  }

  lemma CountDrop<K, V>(m: map<K, V>, k: K, p: (K, V) -> bool)
    requires k in m
    ensures Count(m - {k}, p) + (if p(k, m[k]) then 1 else 0) == Count(m, p)
  {
    var rest := Selected(m, p) - {k};
    assert Selected(m, p) == if p(k, m[k]) then rest + {k} else rest;
    assert Selected(m - {k}, p) == rest;
  }

  lemma CountBound<K, V>(m: map<K, V>, p: (K, V) -> bool)
    ensures Count(m, p) <= |m|
  {
    SubsetSize(Selected(m, p), m.Keys);
  }

  lemma {:induction false} SubsetSize<T>(a: set<T>, b: set<T>)
    requires a <= b
    ensures |a| <= |b|
    ensures |a| == |b| ==> a == b
    decreases a
  {
    if a == {} {
    } else {
      var x :| x in a;
      SubsetSize(a - {x}, b - {x});
    }
  }

  lemma PutSize<K, V>(m: map<K, V>, k: K, v: V)
    ensures |m[k := v]| == if k in m then |m| else |m| + 1
  {
    assert m[k := v].Keys == m.Keys + {k};
  }

  lemma GrowSize<K, V, W>(a: map<K, V>, b: map<K, W>, k: K)
    requires k !in a && b.Keys == a.Keys + {k}
    ensures |b| == |a| + 1
  {
    assert |b.Keys| == |a.Keys| + 1;
  }

  lemma DropSize<K, V>(m: map<K, V>, k: K)
    requires k in m
    ensures |m - {k}| == |m| - 1
  {
    assert (m - {k}).Keys == m.Keys - {k};
  }

  /** `n * c` by repeated addition, which keeps cost sums linear for the solver. */
  ghost function Times(n: nat, c: nat): nat {
    if n == 0 then 0 else Times(n - 1, c) + c
  }

  lemma {:induction false} TimesIsProduct(n: nat, c: nat)
    ensures Times(n, c) == n * c
  {
    if n > 0 {
      TimesIsProduct(n - 1, c);
      assert n * c == (n - 1) * c + c;
    }
  }

  lemma TimesOne(c: nat)
    ensures Times(1, c) == c
  {
    assert Times(1, c) == Times(0, c) + c;
  }

  lemma {:induction false} TimesMono(a: nat, b: nat, c: nat)
    requires a <= b
    ensures Times(a, c) <= Times(b, c)
  {
    if a < b {
      TimesMono(a, b - 1, c);
    }
  }

  // The predicates that are counted.

  ghost function OnIface(id: InterfaceId): (SessionKey, TcpEntry) -> bool {
    (k: SessionKey, e: TcpEntry) => k.iface == id
  }

  ghost function NotPending(): (SessionKey, TcpEntry) -> bool {
    (k: SessionKey, e: TcpEntry) => !e.state.Pending?
  }

  ghost function Orphaned(): (SessionKey, TcpEntry) -> bool {
    (k: SessionKey, e: TcpEntry) => e.orphaned
  }

  /** The sessions that share destination socket `d`. */
  ghost function ToDst(d: DstKey): (SessionKey, UdpEntry) -> bool {
    (k: SessionKey, e: UdpEntry) => DstOf(k) == d
  }

  /** Two steps of a queue compose: what leaves and what stays is what was there and what came. */
  lemma Regroup(a: seq<Bytes>, b: seq<Bytes>, c: seq<Bytes>, d: seq<Bytes>, e: seq<Bytes>, m: seq<Bytes>, f: seq<Bytes>)
    requires a + m == d + e && b + c == m + f
    ensures (a + b) + c == d + (e + f)
  {
    assert (a + b) + c == a + (b + c);
    assert a + (m + f) == (a + m) + f;
    assert (d + e) + f == d + (e + f);
  }
}
