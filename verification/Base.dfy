/** Results, sums over finite maps and sorting by an integer rank: the vocabulary shared by every module. */
module Base {

  datatype Option<+T> = None | Some(value: T)

  /** Every error the modelled operations return, one constructor per sentinel error of the source. */
  datatype Error =
    | UnsupportedVersion | WrongChain | InvalidAmount | SameParticipant | InvalidSourceShard
    | InvalidDestinationShard | WrongSourceShard | SameShard | UnsupportedAsset | Expired
    | DuplicateIntent | InvalidIntent(cause: Error) | MatchingInvariant
    | InvalidOriginalAmount | InvalidMatchedAmount | InvalidFallbackAmount | IntentIdMismatch | AmountConservation
    | ReservationExists | ReservationNotFound | NonceMismatch | NonceExhausted | InsufficientBalance | InvalidStatus
    | UnknownMatchRoot | InvalidProof | WrongShard | SettlementConservation
    | InvalidMatchRoot | MatchRootConflict | PackageWrongShard | PackageRootMismatch
    | InvalidFallback | FallbackNotFound | FallbackWrongShard | FallbackProof
    | EmptyDomain | DuplicateKey | LeafNotFound
    | EmptyWindow | DuplicateShardCut | InvalidShardCut | MissingShardCut | InvalidSettlement
    | BatchSequence | CutSequence | ReceiptCoverage | DuplicateBatchIntent | ExpiredBatchIntent | DerivedBatchMismatch
    | BatchCommitted | BeaconTipChanged | ProposalNotFound
    | InvalidConfig | MissingCheckpoint | UnknownShard | ConflictingReceipt | StaleReceipt | ParentHashMismatch
    | InvalidReceipt | FrozenQueueEmpty | UnexpectedWindow | InvalidState
    | InvalidReceiptNode | InvalidReceiptShard | NotFromBeacon | UnexpectedBatch | HeaderMismatch

  datatype Result<+T> = Ok(value: T) | Err(error: Error)

  lemma {:induction false} SubsetSize<T>(a: set<T>, b: set<T>)
    requires a <= b
    ensures |a| <= |b|
    decreases |a|
  {
    if a != {} {
      var x :| x in a;
      SubsetSize(a - {x}, b - {x});
    }
  }
}

/** The sum of the values of a finite integer-valued map. */
module Sums {

  ghost function Sum<K>(m: map<K, int>): int {
    if m == map[] then 0 else
      var k :| k in m;
      m[k] + Sum(m - {k})
  }

  lemma {:induction false} SumRemove<K>(m: map<K, int>, k: K)
    requires k in m
    ensures Sum(m) == m[k] + Sum(m - {k})
    decreases |m|
  {
    var j :| j in m && Sum(m) == m[j] + Sum(m - {j});
    if j != k {
      SumRemove(m - {j}, k);
      SumRemove(m - {k}, j);
      assert m - {j} - {k} == m - {k} - {j};
    }
  }

  lemma SumUpdate<K>(m: map<K, int>, k: K, v: int)
    ensures Sum(m[k := v]) == Sum(m) + v - (if k in m then m[k] else 0)
  {
    SumRemove(m[k := v], k);
    assert m[k := v] - {k} == m - {k};
    if k in m {
      SumRemove(m, k);
    } else {
      assert m - {k} == m;
    }
  }

  lemma SumUnionStep<K>(a: map<K, int>, b: map<K, int>, k: K)
    requires k in b && k !in a
    ensures Sum(a + b) == b[k] + Sum(a + (b - {k}))
  {
    assert a + b - {k} == a + (b - {k});
    SumRemove(a + b, k);
  }

  lemma {:induction false} SumUnion<K>(a: map<K, int>, b: map<K, int>)
    requires a.Keys !! b.Keys
    ensures Sum(a + b) == Sum(a) + Sum(b)
    decreases |b|
  {
    if b == map[] {
      assert a + b == a;
    } else {
      var k :| k in b;
      SumUnionStep(a, b, k);
      SumRemove(b, k);
      SumUnion(a, b - {k});
    }
  }

  lemma {:induction false} SumNonNegative<K>(m: map<K, int>)
    requires forall k :: k in m ==> m[k] >= 0
    ensures Sum(m) >= 0
    ensures forall k :: k in m ==> m[k] <= Sum(m)
    decreases |m|
  {
    forall k | k in m ensures 0 <= m[k] <= Sum(m) {
      SumNonNegative(m - {k});
      SumRemove(m, k);
    }
    if m != map[] {
      var k :| k in m;
    }
  }

  lemma {:induction false} SumMonotone<K>(a: map<K, int>, b: map<K, int>)
    requires a.Keys == b.Keys
    requires forall k :: k in a ==> a[k] <= b[k]
    ensures Sum(a) <= Sum(b)
    decreases |a|
  {
    if a != map[] {
      var k :| k in a;
      SumRemove(a, k);
      SumRemove(b, k);
      SumMonotone(a - {k}, b - {k});
    } else {
      assert b == map[];
    }
  }

  lemma {:induction false} SumAdd<K>(a: map<K, int>, b: map<K, int>, c: map<K, int>)
    requires a.Keys == c.Keys && b.Keys == c.Keys && forall k :: k in c ==> c[k] == a[k] + b[k]
    ensures Sum(c) == Sum(a) + Sum(b)
    decreases |c|
  {
    if c == map[] {
      assert a == map[] && b == map[];
    } else {
      var k :| k in c;
      SumRemove(a, k);
      SumRemove(b, k);
      SumRemove(c, k);
      SumAdd(a - {k}, b - {k}, c - {k});
    }
  }

  lemma {:induction false} SumZero<K>(m: map<K, int>)
    requires forall k :: k in m ==> m[k] == 0
    ensures Sum(m) == 0
    decreases |m|
  {
    if m != map[] {
      var k :| k in m;
      SumRemove(m, k);
      SumZero(m - {k});
    }
  }
}

/** Go's sort.Slice on an integer key. */
module Sorting {

  function InsertBy<T>(x: T, s: seq<T>, rank: T -> int): (r: seq<T>) {
    if s == [] then [x]
    else if rank(x) <= rank(s[0]) then [x] + s
    else [s[0]] + InsertBy(x, s[1..], rank)
  }

  function SortBy<T>(s: seq<T>, rank: T -> int): (r: seq<T>) {
    if s == [] then [] else InsertBy(s[0], SortBy(s[1..], rank), rank)
  }

  ghost predicate Sorted<T>(s: seq<T>, rank: T -> int) {
    forall i, j :: 0 <= i < j < |s| ==> rank(s[i]) <= rank(s[j])
  }

  /** No two positions hold the same rank. */
  ghost predicate Distinct<T>(s: seq<T>, rank: T -> int) {
    forall i, j :: 0 <= i < j < |s| ==> rank(s[i]) != rank(s[j])
  }

  lemma {:induction false} InsertByProperties<T>(x: T, s: seq<T>, rank: T -> int)
    requires Sorted(s, rank)
    ensures multiset(InsertBy(x, s, rank)) == multiset(s) + multiset{x}
    ensures |InsertBy(x, s, rank)| == |s| + 1
    ensures Sorted(InsertBy(x, s, rank), rank)
    decreases |s|
  {
    if s == [] {
    } else if rank(x) <= rank(s[0]) {
    } else {
      var t := InsertBy(x, s[1..], rank);
      InsertByProperties(x, s[1..], rank);
      TailMultiset(s);
      forall j | 0 <= j < |t| ensures rank(s[0]) <= rank(t[j]) {
        assert t[j] in multiset(t);
        assert t[j] in multiset(s[1..]) || t[j] == x;
        if t[j] != x {
          assert t[j] in s[1..];
        }
      }
    }
  }

  lemma TailMultiset<T>(s: seq<T>)
    requires s != []
    ensures multiset(s[1..]) == multiset(s) - multiset{s[0]}
    ensures multiset(s) == multiset(s[1..]) + multiset{s[0]}
  {
    assert s == [s[0]] + s[1..];
  }

  /** Sorting permutes its input and orders it. */
  lemma {:induction false} SortByProperties<T>(s: seq<T>, rank: T -> int)
    ensures multiset(SortBy(s, rank)) == multiset(s)
    ensures |SortBy(s, rank)| == |s|
    ensures Sorted(SortBy(s, rank), rank)
    decreases |s|
  {
    if s != [] {
      SortByProperties(s[1..], rank);
      InsertByProperties(s[0], SortBy(s[1..], rank), rank);
      TailMultiset(s);
    }
  }

  lemma SameElements<T>(s: seq<T>, t: seq<T>)
    requires multiset(s) == multiset(t)
    ensures forall x :: x in s <==> x in t
    ensures |s| == |t|
  {
    forall x ensures x in s <==> x in t {
      assert x in s <==> x in multiset(s);
      assert x in t <==> x in multiset(t);
    }
    assert |s| == |multiset(s)|;
    assert |t| == |multiset(t)|;
  }

  /** Distinct ranks survive a permutation. */
  lemma {:induction false} DistinctPermutes<T>(s: seq<T>, t: seq<T>, rank: T -> int)
    requires multiset(s) == multiset(t)
    requires Distinct(s, rank)
    ensures Distinct(t, rank)
  {
    forall i, j | 0 <= i < j < |t| ensures rank(t[i]) != rank(t[j]) {
      if rank(t[i]) == rank(t[j]) {
        SameElements(s, t);
        assert t[i] in t && t[j] in t;
        var a :| 0 <= a < |s| && s[a] == t[i];
        var b :| 0 <= b < |s| && s[b] == t[j];
        assert a == b;
        assert t[i] == t[j];
        MultiplicityTwo(t, i, j);
        MultiplicityOne(s, a, rank);
        assert false;
      }
    }
  }

  lemma MultiplicityTwo<T>(t: seq<T>, i: int, j: int)
    requires 0 <= i < j < |t| && t[i] == t[j]
    ensures multiset(t)[t[i]] >= 2
  {
    assert t == t[..j] + [t[j]] + t[j+1..];
    assert t[..j][i] == t[i];
    assert t[i] in multiset(t[..j]);
  }

  lemma MultiplicityOne<T>(s: seq<T>, a: int, rank: T -> int)
    requires 0 <= a < |s| && Distinct(s, rank)
    ensures multiset(s)[s[a]] == 1
  {
    assert s == s[..a] + [s[a]] + s[a+1..];
    assert s[a] !in s[..a];
    assert s[a] !in s[a+1..];
  }

  lemma SameHead<T>(s: seq<T>, t: seq<T>, rank: T -> int)
    requires multiset(s) == multiset(t) && s != []
    requires Sorted(s, rank) && Sorted(t, rank) && Distinct(s, rank)
    ensures t != [] && s[0] == t[0]
  {
    SameElements(s, t);
    assert s[0] in t && t[0] in s;
    var a :| 0 <= a < |t| && t[a] == s[0];
    var b :| 0 <= b < |s| && s[b] == t[0];
    assert rank(s[0]) <= rank(s[b]);
    assert rank(t[0]) <= rank(t[a]);
  }

  /** A sorted sequence with distinct ranks is determined by its elements. */
  lemma {:induction false} SortedUnique<T>(s: seq<T>, t: seq<T>, rank: T -> int)
    requires multiset(s) == multiset(t)
    requires Sorted(s, rank) && Sorted(t, rank) && Distinct(s, rank)
    ensures s == t
    decreases |s|
  {
    if s == [] {
      SameElements(s, t);
    } else {
      SameHead(s, t, rank);
      TailMultiset(s);
      TailMultiset(t);
      var a, b := s[1..], t[1..];
      assert multiset(a) == multiset(b);
      SortedUnique(a, b, rank);
      assert s == [s[0]] + a && t == [t[0]] + b;
    }
  }

  /** Sorting is independent of the order of its input when ranks are distinct. */
  lemma SortByPermutation<T>(s: seq<T>, t: seq<T>, rank: T -> int)
    requires multiset(s) == multiset(t)
    requires Distinct(s, rank)
    ensures SortBy(s, rank) == SortBy(t, rank)
  {
    SortByProperties(s, rank);
    SortByProperties(t, rank);
    DistinctPermutes(s, SortBy(s, rank), rank);
    SortedUnique(SortBy(s, rank), SortBy(t, rank), rank);
  }

  lemma ConcatAssociative<T>(a: seq<T>, b: seq<T>, c: seq<T>)
    ensures a + (b + c) == a + b + c
  {
  }

  // ---- enumerating finite sets ----

  ghost predicate NoDuplicates<T>(s: seq<T>) {
    forall i, j :: 0 <= i < j < |s| ==> s[i] != s[j]
  }

  lemma Pick<T>(s: set<T>) returns (x: T)
    requires s != {}
    ensures x in s
  {
    x :| x in s;
  }

  lemma NoDuplicatesSnoc<T>(s: seq<T>, x: T)
    requires NoDuplicates(s) && x !in s
    ensures NoDuplicates(s + [x])
  {
  }

  /** Go's iteration over the keys of a map, in an arbitrary order. */
  method Listing<T(==)>(s: set<T>) returns (list: seq<T>)
    ensures NoDuplicates(list) && forall x :: x in list <==> x in s
  {
    list := [];
    var todo := s;
    while todo != {}
      invariant todo <= s && NoDuplicates(list)
      invariant forall x :: x in list <==> x in s && x !in todo
    {
      var x :| x in todo;
      NoDuplicatesSnoc(list, x);
      list := list + [x];
      todo := todo - {x};
    }
  }

  ghost function Enumerate<T(!new)>(s: set<T>): (r: seq<T>)
    ensures NoDuplicates(r) && |r| == |s|
    ensures forall x :: x in r <==> x in s
  {
    if s == {} then [] else
      var x :| x in s;
      [x] + Enumerate(s - {x})
  }

  lemma {:induction false} NoDuplicatesMultiset<T>(s: seq<T>)
    requires NoDuplicates(s)
    ensures forall x :: multiset(s)[x] == if x in s then 1 else 0
    decreases |s|
  {
    if s != [] {
      NoDuplicatesMultiset(s[1..]);
      assert s == [s[0]] + s[1..];
    }
  }

  /** Two duplicate-free sequences with the same elements are permutations of each other. */
  lemma SameSetPermutes<T>(s: seq<T>, t: seq<T>)
    requires NoDuplicates(s) && NoDuplicates(t)
    requires forall x :: x in s <==> x in t
    ensures multiset(s) == multiset(t)
  {
    NoDuplicatesMultiset(s);
    NoDuplicatesMultiset(t);
  }

  /** The elements of a set in the order of their ranks. */
  ghost function Ordered<T(!new)>(s: set<T>, rank: T -> int): (r: seq<T>)
    ensures |r| == |s| && Sorted(r, rank)
    ensures forall x :: x in r <==> x in s
  {
    var e := Enumerate(s);
    SortByProperties(e, rank);
    SameElements(SortBy(e, rank), e);
    SortBy(e, rank)
  }

  ghost predicate Injective<T>(s: set<T>, rank: T -> int) {
    forall x, y :: x in s && y in s && rank(x) == rank(y) ==> x == y
  }

  /** Sorting any duplicate-free listing of a set yields its canonical order. */
  lemma SortsToOrdered<T(!new)>(list: seq<T>, s: set<T>, rank: T -> int)
    requires NoDuplicates(list) && (forall x :: x in list <==> x in s) && Injective(s, rank)
    ensures SortBy(list, rank) == Ordered(s, rank)
    ensures Distinct(Ordered(s, rank), rank) && NoDuplicates(Ordered(s, rank))
  {
    SameSetPermutes(list, Enumerate(s));
    assert Distinct(list, rank);
    SortByPermutation(list, Enumerate(s), rank);
    SortByProperties(list, rank);
    DistinctPermutes(list, SortBy(list, rank), rank);
  }

  lemma OrderedDistinct<T(!new)>(s: set<T>, rank: T -> int)
    requires Injective(s, rank)
    ensures Distinct(Ordered(s, rank), rank) && NoDuplicates(Ordered(s, rank))
  {
    SortsToOrdered(Enumerate(s), s, rank);
  }
}
