/**
 * Database tables as maps from generated ids to rows, and the selection
 * primitives Prisma's `findMany`, `findFirst` and `count` reduce to.
 */
module Tables {

  import opened Outcomes

  /** Row ids are allocated in increasing order, so the id order is the insertion order. */
  type Id = nat

  ghost predicate Bounded<T>(m: map<Id, T>, next: Id)
  {
    forall i :: i in m ==> i < next
  }

  /** The ids below `n` satisfying `p`, in increasing order. */
  function Select(n: nat, p: Id -> bool): (r: seq<Id>)
    ensures forall i :: i in r <==> 0 <= i < n && p(i)
    ensures forall a, b :: 0 <= a < b < |r| ==> r[a] < r[b]
  {
    if n == 0 then []
    else
      var rest := Select(n - 1, p);
      assert forall a :: 0 <= a < |rest| ==> rest[a] < n - 1 by {
        forall a | 0 <= a < |rest| ensures rest[a] < n - 1 {
          assert rest[a] in rest;
        }
      }
      if p(n - 1) then rest + [n - 1] else rest
  }

  /** The least id below `n` satisfying `p`. */
  function First(n: nat, p: Id -> bool): (r: Option<Id>)
    ensures r.Some? ==> r.value < n && p(r.value)
    ensures r.Some? ==> forall i :: 0 <= i < r.value ==> !p(i)
    ensures r.None? ==> forall i :: 0 <= i < n ==> !p(i)
  {
    var ids := Select(n, p);
    if ids == [] then None
    else
      assert ids[0] in ids;
      assert forall i :: 0 <= i < ids[0] && p(i) ==> i in ids;
      Some(ids[0])
  }

  /** The least id satisfying `p` is what `First` finds. */
  lemma FirstIs(n: nat, p: Id -> bool, k: Id)
    requires k < n && p(k)
    requires forall i :: 0 <= i < k ==> !p(i)
    ensures First(n, p) == Some(k)
  {
  }

  /** Selections by two predicates that agree below the bound are equal. */
  lemma {:induction false} SelectExt(n: nat, p: Id -> bool, q: Id -> bool)
    requires forall i :: 0 <= i < n ==> p(i) == q(i)
    ensures Select(n, p) == Select(n, q)
  {
    if n > 0 {
      SelectExt(n - 1, p, q);
    }
  }

  /** `findMany({ where })` before ordering: the ids below `n` of rows satisfying `p`, oldest first. */
  function IdsBelow<T>(m: map<Id, T>, n: nat, p: T -> bool): (r: seq<Id>)
    ensures forall i :: i in r <==> i < n && i in m && p(m[i])
    ensures forall a, b :: 0 <= a < b < |r| ==> r[a] < r[b]
  {
    Select(n, i => i in m && p(m[i]))
  }

  /** The ids of the rows satisfying `p`. */
  function Matching<T>(m: map<Id, T>, p: T -> bool): (s: set<Id>)
    ensures forall i :: i in s <==> i in m && p(m[i])
  {
    set i | i in m && p(m[i])
  }

  /** `count({ where })`. */
  function Count<T>(m: map<Id, T>, p: T -> bool): nat
  {
    |Matching(m, p)|
  }

  /** A weaker filter counts at least as many rows. */
  lemma CountMono<T>(m: map<Id, T>, p: T -> bool, q: T -> bool)
    requires forall i :: i in m && p(m[i]) ==> q(m[i])
    ensures Count(m, p) <= Count(m, q)
  {
    var a, b := Matching(m, p), Matching(m, q);
    assert a <= b;
    assert b == a + (b - a);
  }

  /** `findFirst({ where })`: the oldest matching row, if any. */
  function FindFirst<T>(m: map<Id, T>, next: Id, p: T -> bool): (r: Option<Id>)
    ensures r.Some? ==> r.value in m && p(m[r.value]) && r.value < next
    ensures r.Some? ==> forall i :: i in m && i < r.value && p(m[i]) ==> false
    ensures r.None? ==> forall i :: i in m && i < next ==> !p(m[i])
  {
    var q: Id -> bool := i => i in m && p(m[i]);
    var r := First(next, q);
    assert forall i :: i in m && p(m[i]) ==> q(i);
    r
  }

  lemma CountInsert<T>(m: map<Id, T>, k: Id, v: T, p: T -> bool)
    requires k !in m
    ensures Count(m[k := v], p) == Count(m, p) + (if p(v) then 1 else 0)
  {
    if p(v) {
      assert Matching(m[k := v], p) == Matching(m, p) + {k};
    } else {
      assert Matching(m[k := v], p) == Matching(m, p);
    }
  }

  lemma CountRemove<T>(m: map<Id, T>, k: Id, p: T -> bool)
    requires k in m
    ensures Count(m - {k}, p) == Count(m, p) - (if p(m[k]) then 1 else 0)
  {
    if p(m[k]) {
      assert Matching(m - {k}, p) == Matching(m, p) - {k};
    } else {
      assert Matching(m - {k}, p) == Matching(m, p);
    }
  }

  /** Replacing a row by one that satisfies `p` exactly when the old one did keeps the count. */
  lemma CountReplace<T>(m: map<Id, T>, k: Id, v: T, p: T -> bool)
    requires k in m && p(v) == p(m[k])
    ensures Count(m[k := v], p) == Count(m, p)
  {
    assert Matching(m[k := v], p) == Matching(m, p);
  }

  /** A bound above every id can be raised without changing the listing. */
  lemma {:induction false} IdsBelowBeyond<T>(m: map<Id, T>, n: nat, n': nat, p: T -> bool)
    requires Bounded(m, n) && n <= n'
    ensures IdsBelow(m, n', p) == IdsBelow(m, n, p)
    decreases n' - n
  {
    if n' > n {
      IdsBelowBeyond(m, n, n' - 1, p);
    }
  }

  /** No two rows share a key: the `@@unique` constraints of the schema. */
  ghost predicate UniqueKey<T, K>(m: map<Id, T>, key: T -> K)
  {
    forall i, j :: i in m && j in m && key(m[i]) == key(m[j]) ==> i == j
  }

  /** A row whose key no existing row has keeps the keys unique. */
  lemma UniqueInsert<T, K>(m: map<Id, T>, k: Id, v: T, key: T -> K)
    requires UniqueKey(m, key) && k !in m
    requires forall i :: i in m ==> key(m[i]) != key(v)
    ensures UniqueKey(m[k := v], key)
  {
  }

  /** A matching row below the bound means `findFirst` finds a row. */
  lemma FindFirstSees<T>(m: map<Id, T>, next: Id, p: T -> bool, k: Id)
    requires k in m && k < next && p(m[k])
    ensures FindFirst(m, next, p).Some?
  {
  }

  /** Raising the bound past every id does not change which row `findFirst` returns. */
  lemma FindFirstBeyond<T>(m: map<Id, T>, n: Id, n': Id, p: T -> bool)
    requires Bounded(m, n) && n <= n'
    ensures FindFirst(m, n', p) == FindFirst(m, n, p)
  {
    var r := FindFirst(m, n, p);
    var r' := FindFirst(m, n', p);
    if r.Some? {
      assert r'.Some?;
      assert !(r'.value < r.value);
    }
  }

  /** The ids a listing mentions. */
  function Elements(s: seq<Id>): (r: set<Id>)
    ensures forall i :: i in r <==> i in s
  {
    set i | i in s
  }

  /** A strictly increasing sequence has as many elements as its set. */
  lemma {:induction false} IncreasingCard(s: seq<Id>)
    requires forall a, b :: 0 <= a < b < |s| ==> s[a] < s[b]
    ensures |Elements(s)| == |s|
  {
    if s != [] {
      var x := s[|s| - 1];
      var t := s[..|s| - 1];
      assert forall a, b :: 0 <= a < b < |t| ==> t[a] < t[b];
      IncreasingCard(t);
      assert s == t + [x];
      assert Elements(s) == Elements(t) + {x};
      assert x !in Elements(t);
    }
  }

  /** A listing holds exactly as many ids as `count` reports for the same filter. */
  lemma IdsBelowCount<T>(m: map<Id, T>, n: nat, p: T -> bool)
    requires Bounded(m, n)
    ensures |IdsBelow(m, n, p)| == Count(m, p)
  {
    var r := IdsBelow(m, n, p);
    IncreasingCard(r);
    assert Elements(r) == Matching(m, p);
  }

  /** A rearrangement of a strictly increasing sequence repeats no element. */
  lemma PermutationDistinct(s: seq<Id>, t: seq<Id>)
    requires multiset(s) == multiset(t)
    requires forall a, b :: 0 <= a < b < |t| ==> t[a] < t[b]
    ensures forall x, y :: 0 <= x < y < |s| ==> s[x] != s[y]
  {
    forall x, y | 0 <= x < y < |s| ensures s[x] != s[y] {
      MultiplicityOne(t, s[x]);
      if s[x] == s[y] {
        TwiceInSeq(s, x, y);
      }
    }
  }

  lemma {:induction false} MultiplicityOne(s: seq<Id>, v: Id)
    requires forall a, b :: 0 <= a < b < |s| ==> s[a] < s[b]
    ensures multiset(s)[v] <= 1
  {
    if s != [] {
      assert s == [s[0]] + s[1..];
      MultiplicityOne(s[1..], v);
      if s[0] == v {
        assert v !in s[1..];
      }
    }
  }

  lemma TwiceInSeq(s: seq<Id>, x: nat, y: nat)
    requires x < y < |s| && s[x] == s[y]
    ensures multiset(s)[s[x]] >= 2
  {
    assert s == s[..y] + [s[y]] + s[y + 1..];
    assert s[x] in s[..y];
  }
}
