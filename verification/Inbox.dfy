/**
 * The settlement inbox of a shard (pkg/netting/settlement/inbox.go) and the roots its chain has confirmed
 * (pkg/chain/settlement.go): packages wait for their root, and each chunk reaches the transaction pool once.
 */
module SettlementInbox {
  import opened Base
  import opened ByteStrings
  import opened Model
  import opened Packages
  import opened Sorting

  datatype PackageKey = PackageKey(batchId: Hash, chunkIndex: Uint32)

  function KeyOf(p: Package): PackageKey {
    PackageKey(p.header.batchId, p.settlement.chunkIndex)
  }

  function ByChunkIndex(): PackageKey -> int {
    (k: PackageKey) => k.chunkIndex
  }

  ghost predicate InPool(pool: seq<Package>, k: PackageKey) {
    exists i :: 0 <= i < |pool| && KeyOf(pool[i]) == k
  }

  /** No chunk is in the pool twice. */
  ghost predicate OncePerChunk(pool: seq<Package>) {
    forall i, j :: 0 <= i < j < |pool| ==> KeyOf(pool[i]) != KeyOf(pool[j])
  }

  class Inbox {
    const h: Hasher
    const shardId: Int64
    var roots: map<Hash, Header>
    var confirmed: map<Hash, Header>
    var pending: map<PackageKey, Package>
    var enqueued: set<PackageKey>
    var pool: seq<Package>

    /** The package is of this shard and carries the header confirmed for its batch. */
    ghost predicate Admitted(p: Package)
      reads this`confirmed
    {
      p.settlement.shardId == shardId && p.header.batchId in confirmed && confirmed[p.header.batchId] == p.header
    }

    ghost predicate Waiting(k: PackageKey)
      requires k in pending
      reads this`pending, this`enqueued
    {
      KeyOf(pending[k]) == k && pending[k].settlement.shardId == shardId && k !in enqueued
    }

    /** A confirmed root is the chain's, and its identifier is derived from what it commits to. */
    ghost predicate RootOk(b: Hash)
      requires b in confirmed
      reads this`confirmed, this`roots
    {
      confirmed[b].batchId == b && HeaderDerived(h, confirmed[b]) && b in roots && roots[b] == confirmed[b]
    }

    ghost predicate Valid()
      reads this
    {
      && (forall i :: 0 <= i < |pool| ==> Admitted(pool[i])) && OncePerChunk(pool) && (forall k :: k in enqueued <==> InPool(pool, k))
      && (forall k :: k in pending ==> Waiting(k)) && (forall b :: b in confirmed ==> RootOk(b))
    }

    constructor (h: Hasher, shardId: Int64)
      ensures Valid() && pool == [] && confirmed == map[] && pending == map[]
    {
      this.h, this.shardId := h, shardId;
      roots, confirmed, pending, enqueued, pool := map[], map[], map[], {}, [];
    }

    /** The chain's half of a confirmation: a root is stored once, and never replaced by another. */
    method ConfirmMatchRoot(header: Header) returns (err: Option<Error>)
      requires Valid()
      modifies this`roots
      ensures Valid() && (err.None? ==> HeaderDerived(h, header) && header.batchId in roots && roots[header.batchId] == header)
      ensures forall b :: b in old(roots) ==> b in roots && roots[b] == old(roots)[b]
    {
      if !HeaderDerived(h, header) {
        return Some(InvalidMatchRoot);
      }
      if header.batchId in roots {
        return if roots[header.batchId] == header then None else Some(MatchRootConflict);
      }
      roots := roots[header.batchId := header];
      err := None;
    }

    /** The package becomes a transaction, unless its header is not the confirmed one. */
    method Enqueue(pack: Package) returns (err: Option<Error>)
      requires Valid() && pack.header.batchId in confirmed && pack.settlement.shardId == shardId
      requires KeyOf(pack) !in enqueued && KeyOf(pack) !in pending
      modifies this`pool, this`enqueued
      ensures Valid() && (err.None? <==> pack.header == confirmed[pack.header.batchId])
      ensures pool == old(pool) + (if err.None? then [pack] else []) && enqueued == old(enqueued) + (if err.None? then {KeyOf(pack)} else {})
    {
      if confirmed[pack.header.batchId] != pack.header {
        return Some(PackageRootMismatch);
      }
      pool := pool + [pack];
      enqueued := enqueued + {KeyOf(pack)};
      err := None;
      PoolGrows(old(pool), pack);
    }

    method AddPackage(pack: Package) returns (err: Option<Error>)
      requires Valid()
      modifies this`pool, this`enqueued, this`pending
      ensures Valid() && old(pool) <= pool && |pool| <= |old(pool)| + 1
      ensures err.None? ==> KeyOf(pack) in enqueued || KeyOf(pack) in pending
      ensures err.Some? ==> pool == old(pool) && pending == old(pending)
    {
      if pack.settlement.shardId != shardId {
        return Some(PackageWrongShard);
      }
      var key := KeyOf(pack);
      if key in enqueued || key in pending {
        return None;
      }
      if key.batchId in confirmed {
        err := Enqueue(pack);
        PoolGrows(old(pool), pack);
        return;
      }
      pending := pending[key := pack];
      err := None;
    }

    /** The waiting keys of a batch, in the order of their chunks. */
    method WaitingKeys(batchId: Hash) returns (keys: seq<PackageKey>)
      ensures NoDuplicates(keys) && forall k :: k in keys <==> k in pending && k.batchId == batchId
    {
      var all: seq<PackageKey> := Listing(pending.Keys);
      keys := [];
      for i := 0 to |all|
        invariant NoDuplicates(keys) && forall k :: k in keys <==> k in all[..i] && k.batchId == batchId
      {
        assert all[..i + 1] == all[..i] + [all[i]];
        if all[i].batchId == batchId {
          assert all[i] !in all[..i];
          NoDuplicatesSnoc(keys, all[i]);
          keys := keys + [all[i]];
        }
      }
      assert all[..|all|] == all;
      keys := SortKeys(keys);
    }

    /** Confirm: once a root is confirmed, every package that waited for it, with its header, is in the pool. */
    method Confirm(header: Header) returns (err: Option<Error>)
      requires Valid()
      modifies this
      ensures Valid() && old(pool) <= pool
      ensures err.None? ==> confirmed == old(confirmed)[header.batchId := header]
      ensures err.None? ==> forall k :: k in old(pending) && k.batchId == header.batchId ==> k in enqueued && k !in pending
      ensures forall k :: k in old(pending) && k.batchId != header.batchId ==> k in pending && pending[k] == old(pending)[k]
    {
      err := ConfirmMatchRoot(header);
      if err.Some? {
        return;
      }
      confirmed := confirmed[header.batchId := header];
      var keys := WaitingKeys(header.batchId);
      ghost var waiting := pending;
      for i := 0 to |keys|
        invariant Valid() && old(pool) <= pool && confirmed == old(confirmed)[header.batchId := header]
        invariant forall k :: k in pending <==> k in waiting && k !in keys[..i]
        invariant forall k :: k in pending ==> pending[k] == waiting[k]
        invariant forall k :: k in keys[..i] ==> k in enqueued
      {
        var key := keys[i];
        assert key !in keys[..i] && keys[..i + 1] == keys[..i] + [key];
        err := Release(key);
        if err.Some? {
          return;
        }
      }
      assert keys[..|keys|] == keys;
      err := None;
    }

    /** One waiting package, which stays where it is if its header is not the confirmed one. */
    method Release(key: PackageKey) returns (err: Option<Error>)
      requires Valid() && key in pending && key.batchId in confirmed
      modifies this`pool, this`enqueued, this`pending
      ensures Valid() && old(pool) <= pool
      ensures err.None? ==> pending == old(pending) - {key} && enqueued == old(enqueued) + {key}
      ensures err.Some? ==> pending == old(pending) && enqueued == old(enqueued)
    {
      assert Waiting(key);
      var pack := pending[key];
      pending := pending - {key};
      err := Enqueue(pack);
      if err.Some? {
        pending := pending[key := pack];
      }
    }
  }

  lemma PoolGrows(pool: seq<Package>, pack: Package)
    ensures pool <= pool + [pack] && (forall k :: InPool(pool + [pack], k) <==> InPool(pool, k) || k == KeyOf(pack))
  {
    forall k ensures InPool(pool + [pack], k) <==> InPool(pool, k) || k == KeyOf(pack) {
      if InPool(pool, k) {
        var i :| 0 <= i < |pool| && KeyOf(pool[i]) == k;
        assert (pool + [pack])[i] == pool[i];
      }
      assert (pool + [pack])[|pool|] == pack;
    }
  }

  method SortKeys(keys: seq<PackageKey>) returns (sorted: seq<PackageKey>)
    requires NoDuplicates(keys)
    ensures NoDuplicates(sorted) && Sorted(sorted, ByChunkIndex()) && forall k :: k in sorted <==> k in keys
  {
    sorted := SortBy(keys, ByChunkIndex());
    SortByProperties(keys, ByChunkIndex());
    SameElements(sorted, keys);
    SortedOnce(keys, sorted);
  }

  /** A permutation of a list without repetition has none. */
  lemma SortedOnce(keys: seq<PackageKey>, sorted: seq<PackageKey>)
    requires NoDuplicates(keys) && multiset(sorted) == multiset(keys)
    ensures NoDuplicates(sorted)
  {
    forall k ensures multiset(keys)[k] <= 1 {
      CountedOnce(keys, k);
    }
    forall i, j | 0 <= i < j < |sorted| ensures sorted[i] != sorted[j] {
      if sorted[i] == sorted[j] {
        CountedTwice(sorted, i, j);
        assert false;
      }
    }
  }

  lemma {:induction false} CountedOnce(keys: seq<PackageKey>, k: PackageKey)
    requires NoDuplicates(keys)
    ensures multiset(keys)[k] <= 1
    decreases |keys|
  {
    if keys != [] {
      var n := |keys| - 1;
      CountedOnce(keys[..n], k);
      assert keys == keys[..n] + [keys[n]];
      if keys[n] == k {
        assert k !in keys[..n];
      }
    }
  }

  lemma CountedTwice(keys: seq<PackageKey>, i: nat, j: nat)
    requires i < j < |keys| && keys[i] == keys[j]
    ensures multiset(keys)[keys[i]] >= 2
  {
    assert keys == keys[..i] + [keys[i]] + keys[i + 1..j] + [keys[j]] + keys[j + 1..];
  }
}
