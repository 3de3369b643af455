/**
 The node's store: one row per path, the feed counter, the blobs, and the
 bookmark into each peer's feed.
 */
module Store {
  import opened Wrappers
  import opened Entry

  type Rows = map<string, Meta>

  datatype StoreState = StoreState(rows: Rows, head: int, blobs: map<string, Bytes>, peers: map<string, int>)

  const EMPTY_STORE := StoreState(map[], 0, map[], map[])

  /** Rows are filed under their path; feed positions are unique, positive and at most the head. */
  ghost predicate WellFormed(st: StoreState)
  {
    && st.head >= 0
    && WellFiled(st.rows)
    && (forall p | p in st.rows :: 0 < st.rows[p].pos <= st.head)
    && UniqueSeqs(st.rows)
  }

  ghost predicate WellFiled(rows: Rows)
  {
    forall p | p in rows :: rows[p].path == p
  }

  ghost predicate UniqueSeqs(rows: Rows)
  {
    forall p, q | p in rows && q in rows && rows[p].pos == rows[q].pos :: p == q
  }

  /* ----- Apply ----- */

  /** The rows after upserting the first n metas; meta i lands at feed position base + i + 1. */
  function Upsert(rows: Rows, metas: seq<Meta>, base: int, n: nat): Rows
    requires n <= |metas|
  {
    if n == 0 then rows
    else Upsert(rows, metas, base, n - 1)[metas[n - 1].path := metas[n - 1].(pos := base + n)]
  }

  function Apply(st: StoreState, metas: seq<Meta>): StoreState
  {
    st.(rows := Upsert(st.rows, metas, st.head, |metas|), head := st.head + |metas|)
  }

  /** The index of the last of the first n metas for path p, or -1. */
  function LastIndex(metas: seq<Meta>, n: nat, p: string): (i: int)
    requires n <= |metas|
    ensures -1 <= i < n
    ensures i >= 0 ==> metas[i].path == p
    ensures forall j | i < j < n :: metas[j].path != p
  {
    if n == 0 then -1
    else if metas[n - 1].path == p then n - 1
    else LastIndex(metas, n - 1, p)
  }

  predicate Touches(metas: seq<Meta>, p: string)
  {
    LastIndex(metas, |metas|, p) >= 0
  }

  /**
   What an upsert leaves at each path: the last batch entry for it, stamped with
   its own feed position, or the row that was there.
   */
  lemma {:induction false} UpsertAt(rows: Rows, metas: seq<Meta>, base: int, n: nat, p: string)
    requires n <= |metas|
    ensures var i, after := LastIndex(metas, n, p), Upsert(rows, metas, base, n);
            if i >= 0 then p in after && after[p] == metas[i].(pos := base + i + 1)
            else (p in after <==> p in rows) && (p in rows ==> after[p] == rows[p])
  {
    if n > 0 {
      UpsertAt(rows, metas, base, n - 1, p);
    }
  }

  /**
   Apply keeps the store well formed, gives every written row a feed position
   above the old head, and leaves every row at or below the old head as it was.
   */
  lemma ApplyKeepsFeed(st: StoreState, metas: seq<Meta>)
    requires WellFormed(st)
    ensures WellFormed(Apply(st, metas))
    ensures OldFeedKept(st, Apply(st, metas))
    ensures forall p :: p in Apply(st, metas).rows <==> p in st.rows || Touches(metas, p)
  {
    hide Upsert, LastIndex;
    var st' := Apply(st, metas);
    forall p
      ensures p in st'.rows <==> p in st.rows || Touches(metas, p)
      ensures p in st'.rows && Touches(metas, p) ==> st'.rows[p].path == p && st.head < st'.rows[p].pos <= st'.head
      ensures p in st'.rows && !Touches(metas, p) ==> p in st.rows && st'.rows[p] == st.rows[p]
    {
      UpsertAt(st.rows, metas, st.head, |metas|, p);
    }
    forall p, q | p in st'.rows && q in st'.rows && st'.rows[p].pos == st'.rows[q].pos
      ensures p == q
    {
      UpsertAt(st.rows, metas, st.head, |metas|, p);
      UpsertAt(st.rows, metas, st.head, |metas|, q);
    }
  }

  /** Every row of the later store at or below the earlier head was there before. */
  ghost predicate OldFeedKept(st: StoreState, st': StoreState)
  {
    && st.head <= st'.head
    && forall p | p in st'.rows && st'.rows[p].pos <= st.head :: p in st.rows && st'.rows[p] == st.rows[p]
  }

  /* ----- the changes feed ----- */

  predicate AnyAbove(rows: Rows, since: int)
  {
    exists p | p in rows :: rows[p].pos > since
  }

  /** The row with the least feed position above since. */
  predicate IsNext(rows: Rows, since: int, p: string)
  {
    && p in rows
    && rows[p].pos > since
    && forall q | q in rows && rows[q].pos > since :: rows[p].pos <= rows[q].pos
  }

  lemma {:induction false} NextExists(rows: Rows, since: int, keys: set<string>) returns (p: string)
    requires keys <= rows.Keys
    requires exists q | q in keys :: rows[q].pos > since
    ensures p in keys && rows[p].pos > since
    ensures forall q | q in keys && rows[q].pos > since :: rows[p].pos <= rows[q].pos
    decreases keys
  {
    var q :| q in keys && rows[q].pos > since;
    var rest := keys - {q};
    if exists r | r in rest :: rows[r].pos > since {
      var r := NextExists(rows, since, rest);
      p := if rows[q].pos <= rows[r].pos then q else r;
    } else {
      p := q;
    }
  }

  lemma NextIsThere(rows: Rows, since: int)
    requires AnyAbove(rows, since)
    ensures exists p :: IsNext(rows, since, p)
  {
    var least := NextExists(rows, since, rows.Keys);
    assert IsNext(rows, since, least);
  }

  ghost function NextRow(rows: Rows, since: int): (m: Meta)
    requires AnyAbove(rows, since)
    ensures IsNext(rows, since, m.path) || !WellFiled(rows)
    ensures m.pos > since
  {
    NextIsThere(rows, since);
    var p :| IsNext(rows, since, p);
    rows[p]
  }

  /** Up to limit rows with feed position above since, in feed order. */
  ghost function Manifest(rows: Rows, since: int, limit: nat): (feed: seq<Meta>)
    ensures |feed| <= limit
    decreases limit
  {
    if limit == 0 || !AnyAbove(rows, since) then []
    else
      var m := NextRow(rows, since);
      [m] + Manifest(rows, m.pos, limit - 1)
  }

  /** The feed position a puller has reached after reading feed. */
  function HeadOf(since: int, feed: seq<Meta>): int
  {
    if feed == [] then since else feed[|feed| - 1].pos
  }

  /** Every row with feed position in (since, upto] is among the rows listed. */
  ghost predicate Delivered(rows: Rows, since: int, upto: int, feed: seq<Meta>)
  {
    forall p | p in rows && since < rows[p].pos <= upto :: rows[p] in feed
  }

  predicate IsAscending(since: int, feed: seq<Meta>)
  {
    && (forall i | 0 <= i < |feed| :: since < feed[i].pos)
    && (forall i, j | 0 <= i < j < |feed| :: feed[i].pos < feed[j].pos)
  }

  predicate AreRows(rows: Rows, feed: seq<Meta>)
  {
    forall i | 0 <= i < |feed| :: feed[i].path in rows && rows[feed[i].path] == feed[i]
  }

  /**
   What a manifest query returns: rows of the store, in strictly increasing feed
   order above since, skipping none, and stopping early only at the limit.
   */
  ghost predicate IsFeed(rows: Rows, since: int, limit: nat, feed: seq<Meta>)
  {
    && |feed| <= limit
    && AreRows(rows, feed)
    && IsAscending(since, feed)
    && Delivered(rows, since, HeadOf(since, feed), feed)
    && (|feed| < limit ==> forall p | p in rows :: rows[p].pos <= HeadOf(since, feed))
  }

  lemma {:induction false} ManifestIsFeed(st: StoreState, since: int, limit: nat)
    requires WellFormed(st)
    ensures IsFeed(st.rows, since, limit, Manifest(st.rows, since, limit))
    decreases limit
  {
    var rows := st.rows;
    if limit > 0 && AnyAbove(rows, since) {
      var m := NextRow(rows, since);
      var rest := Manifest(rows, m.pos, limit - 1);
      ManifestIsFeed(st, m.pos, limit - 1);
      FeedCons(st, since, limit, m, rest);
    }
  }

  lemma FeedCons(st: StoreState, since: int, limit: nat, m: Meta, rest: seq<Meta>)
    requires WellFormed(st) && limit > 0
    requires IsNext(st.rows, since, m.path) && st.rows[m.path] == m
    requires IsFeed(st.rows, m.pos, limit - 1, rest)
    ensures IsFeed(st.rows, since, limit, [m] + rest)
  {
    var feed := [m] + rest;
    assert feed[0] == m && forall i | 1 <= i < |feed| :: feed[i] == rest[i - 1];
    assert HeadOf(since, feed) == HeadOf(m.pos, rest);
    assert AreRows(st.rows, feed);
    assert IsAscending(since, feed);
    forall p | p in st.rows && since < st.rows[p].pos <= HeadOf(since, feed)
      ensures st.rows[p] in feed
    {
      if st.rows[p].pos > m.pos {
        assert st.rows[p] in rest;
        var i :| 0 <= i < |rest| && rest[i] == st.rows[p];
        assert feed[i + 1] == st.rows[p];
      } else {
        assert p == m.path;
      }
    }
  }

  /** Reading one row more continues from where the shorter read stopped. */
  lemma {:induction false} ManifestSnoc(rows: Rows, since: int, limit: nat)
    ensures var feed := Manifest(rows, since, limit);
            var cursor := HeadOf(since, feed);
            Manifest(rows, since, limit + 1) ==
            if |feed| == limit && AnyAbove(rows, cursor) then feed + [NextRow(rows, cursor)] else feed
    decreases limit
  {
    if limit > 0 && AnyAbove(rows, since) {
      var m := NextRow(rows, since);
      var rest := Manifest(rows, m.pos, limit - 1);
      ManifestSnoc(rows, m.pos, limit - 1);
      assert HeadOf(since, [m] + rest) == HeadOf(m.pos, rest);
    }
  }

  lemma ManifestGrows(st: StoreState, since: int, n: nat, p: string)
    requires WellFormed(st)
    requires |Manifest(st.rows, since, n)| == n
    requires IsNext(st.rows, HeadOf(since, Manifest(st.rows, since, n)), p)
    ensures Manifest(st.rows, since, n + 1) == Manifest(st.rows, since, n) + [st.rows[p]]
  {
    ManifestSnoc(st.rows, since, n);
    var cursor := HeadOf(since, Manifest(st.rows, since, n));
    assert IsNext(st.rows, cursor, NextRow(st.rows, cursor).path);
  }

  /** A read that ran out of rows is the whole answer, whatever the limit. */
  lemma {:induction false} ManifestStops(rows: Rows, since: int, n: nat, limit: nat)
    requires n <= limit
    requires n == limit || !AnyAbove(rows, HeadOf(since, Manifest(rows, since, n)))
    ensures Manifest(rows, since, n) == Manifest(rows, since, limit)
    decreases limit
  {
    if n < limit {
      ManifestStops(rows, since, n, limit - 1);
      ManifestSnoc(rows, since, limit - 1);
    }
  }

  /* ----- collection ----- */

  predicate Expired(m: Meta, before: int)
  {
    m.deleted && m.deletedAt > 0 && m.deletedAt < before
  }

  function DropExpired(st: StoreState, before: int): StoreState
  {
    st.(rows := map p | p in st.rows && !Expired(st.rows[p], before) :: st.rows[p])
  }

  ghost predicate Referenced(rows: Rows, hash: string)
  {
    exists p | p in rows :: rows[p].hash != "" && rows[p].hash == hash
  }

  ghost function DropUnreferenced(st: StoreState): StoreState
  {
    st.(blobs := map h | h in st.blobs && Referenced(st.rows, h) :: st.blobs[h])
  }

  function PeerSeq(st: StoreState, node: string): int
  {
    if node in st.peers then st.peers[node] else 0
  }

  function Get(st: StoreState, path: string): Option<Meta>
  {
    if path in st.rows then Some(st.rows[path]) else None
  }

  /** PutBlob: content already present stays as it is. */
  function WithBlob(blobs: map<string, Bytes>, hash: string, content: Bytes): map<string, Bytes>
  {
    if hash in blobs then blobs else blobs[hash := content]
  }

  /** The store, updated in place. */
  class Store {
    var rows: Rows
    var counter: int
    var blobs: map<string, Bytes>
    var peers: map<string, int>

    constructor ()
      ensures State() == EMPTY_STORE
    {
      rows, counter, blobs, peers := map[], 0, map[], map[];
    }

    function State(): StoreState
      reads this
    {
      StoreState(rows, counter, blobs, peers)
    }

    /** Stamps each entry with the next feed position and upserts them in order. */
    method Apply(metas: seq<Meta>) returns (head: int)
      modifies this
      ensures State() == (var was := old(State());
                          was.(rows := Upsert(was.rows, metas, was.head, |metas|), head := was.head + |metas|))
      ensures head == counter
    {
      if metas == [] {
        return counter;
      }
      var base := counter;
      counter := counter + |metas|;
      head := counter;
      var staged: seq<Meta> := [];
      for i := 0 to |metas|
        invariant |staged| == i
        invariant forall j | 0 <= j < i :: staged[j] == metas[j].(pos := base + j + 1)
      {
        staged := staged + [metas[i].(pos := base + i + 1)];
      }
      for i := 0 to |staged|
        invariant rows == Upsert(old(rows), metas, base, i)
        invariant blobs == old(blobs) && peers == old(peers) && counter == head
      {
        rows := rows[staged[i].path := staged[i]];
      }
    }

    method ManifestSince(since: int, limit: nat) returns (feed: seq<Meta>)
      requires WellFormed(State())
      ensures feed == Manifest(rows, since, limit)
    {
      feed := [];
      while |feed| < limit && AnyAbove(rows, HeadOf(since, feed))
        invariant |feed| <= limit
        invariant feed == Manifest(rows, since, |feed|)
        decreases limit - |feed|
      {
        var cursor := HeadOf(since, feed);
        NextIsThere(rows, cursor);
        var p :| p in rows && IsNext(rows, cursor, p);
        ManifestGrows(State(), since, |feed|, p);
        feed := feed + [rows[p]];
      }
      ManifestStops(rows, since, |feed|, limit);
    }

    /** Files content under its own hash; address is the hash function. */
    method PutBlob(content: Bytes, address: Bytes -> string) returns (hash: string)
      modifies this`blobs
      ensures hash == address(content)
      ensures blobs == WithBlob(old(blobs), address(content), content)
    {
      hash := address(content);
      if hash !in blobs {
        blobs := blobs[hash := content];
      }
    }

    method SetPeerSeq(node: string, seen: int)
      modifies this`peers
      ensures peers == old(peers)[node := seen]
    {
      peers := peers[node := seen];
    }

    /** Deletes the expired tombstones; returns how many went. */
    method GCTombstones(before: int) returns (gone: nat)
      modifies this`rows
      ensures State() == DropExpired(old(State()), before)
      ensures forall p | p in old(rows) :: p !in rows <==> old(rows)[p].deleted && 0 < old(rows)[p].deletedAt < before
      ensures gone == |old(rows)| - |rows|
    {
      var kept := map p | p in rows && !Expired(rows[p], before) :: rows[p];
      assert kept.Keys <= rows.Keys;
      KeysBound(kept, rows);
      gone := |rows| - |kept|;
      rows := kept;
    }

    /** Deletes the blobs no row references; returns how many went. */
    method GCBlobs() returns (gone: nat)
      modifies this`blobs
      ensures State() == DropUnreferenced(old(State()))
      ensures forall h | h in old(blobs) :: h in blobs <==> h != "" && exists p :: p in rows && rows[p].hash == h
      ensures gone == |old(blobs)| - |blobs|
    {
      var used := set p | p in rows && rows[p].hash != "" :: rows[p].hash;
      var kept := map h | h in blobs && h in used :: blobs[h];
      assert kept == DropUnreferenced(State()).blobs;
      KeysBound(kept, blobs);
      gone := |blobs| - |kept|;
      blobs := kept;
    }
  }

  lemma {:induction false} SubsetSize<T>(a: set<T>, b: set<T>)
    requires a <= b
    ensures |a| <= |b|
  {
    assert b == a + (b - a);
    assert |b| == |a| + |b - a|;
  }

  lemma KeysBound<V>(a: map<string, V>, b: map<string, V>)
    requires a.Keys <= b.Keys
    ensures |a| <= |b|
  {
    SubsetSize(a.Keys, b.Keys);
    assert |a| == |a.Keys| && |b| == |b.Keys|;
  }
}
