/** What every operation of a node keeps, whatever its peers send. */
module NodeFacts {
  import opened Wrappers
  import opened Hlc
  import opened Path
  import opened Entry
  import opened Resolution
  import opened Store
  import opened Node
  import opened AntiEntropy

  /** t is not before o. */
  predicate NotBefore(t: Timestamp, o: Timestamp)
  {
    !Precedes(t, o)
  }

  /** The clock has reached every version in the store. */
  ghost predicate ClockCovers(n: NodeState)
  {
    forall p | p in n.store.rows :: NotBefore(n.clock, n.store.rows[p].version.hlc)
  }

  ghost predicate NodeOk(n: NodeState)
  {
    WellFormed(n.store) && ClockCovers(n)
  }

  lemma FormedOf(n: NodeState)
    requires NodeOk(n)
    ensures WellFormed(n.store) && WellFiled(n.store.rows)
  {
  }

  /**
   No uint32 counter wraps while a page is applied: each entry advances the
   clock at most twice. A caller can check this before the page.
   */
  predicate RoomForPage(clock: Timestamp, entries: seq<Meta>)
  {
    && Room(clock, 2 * |entries|)
    && forall i | 0 <= i < |entries| :: Room(entries[i].version.hlc, 2 * |entries|)
  }

  /** No row went away and every row that changed was replaced by a strictly later write. */
  ghost predicate Rises(before: Rows, after: Rows)
  {
    forall p | p in before :: p in after && (after[p] == before[p] || After(after[p].version, before[p].version))
  }

  lemma RisesIsTransitive(a: Rows, b: Rows, c: Rows)
    requires Rises(a, b) && Rises(b, c)
    ensures Rises(a, c)
  {
    forall p | p in a ensures p in c && (c[p] == a[p] || After(c[p].version, a[p].version)) {
      if c[p] != b[p] && b[p] != a[p] {
        AfterIsTransitive(c[p].version, b[p].version, a[p].version);
      }
    }
  }

  /** m is one of the first k page entries and beats the committed row for its path. */
  predicate Taken(cfg: Config, rows: Rows, entries: seq<Meta>, k: nat, m: Meta)
    requires k <= |entries|
  {
    && m in entries[..k]
    && Valid(cfg, m)
    && (m.path in rows ==> After(m.version, rows[m.path].version))
  }

  /** m is l under its conflict name: all but path, version and what it replaces is l's. */
  predicate Preserves(node: string, l: Meta, m: Meta)
  {
    && m.path == ConflictName(l.path, l.version.origin, l.version.hlc.wall)
    && m.kind == l.kind && m.hash == l.hash && m.size == l.size
    && m.mode == l.mode && m.uid == l.uid && m.gid == l.gid
    && m.deleted == l.deleted && m.deletedAt == l.deletedAt
    && m.prevHash == "" && m.version.origin == node
  }

  /** m is a conflict copy, not yet in the feed, of the committed row for path p. */
  predicate IsCopyOf(cfg: Config, rows: Rows, m: Meta, p: string)
  {
    p in rows && HoldsContent(rows[p]) && Preserves(cfg.node, rows[p], m) && m.pos == 0
  }

  ghost predicate IsCopy(cfg: Config, n: NodeState, entries: seq<Meta>, k: nat, m: Meta)
    requires k <= |entries|
  {
    && Precedes(n.clock, m.version.hlc)
    && exists e | e in entries[..k] :: IsCopyOf(cfg, n.store.rows, m, e.path)
  }

  /** Where each element of the batch came from, and that copies are stamped after all that precede them. */
  ghost predicate BatchOk(cfg: Config, n: NodeState, entries: seq<Meta>, k: nat, acc: Acc)
    requires k <= |entries|
  {
    && (forall j | 0 <= j < |acc.batch| ::
          && NotBefore(acc.clock, acc.batch[j].version.hlc)
          && (Taken(cfg, n.store.rows, entries, k, acc.batch[j]) || IsCopy(cfg, n, entries, k, acc.batch[j])))
    && (forall i, j | 0 <= i < j < |acc.batch| ::
          Precedes(acc.batch[i].version.hlc, acc.batch[j].version.hlc) ||
          Taken(cfg, n.store.rows, entries, k, acc.batch[j]))
  }

  ghost predicate ClockOk(n: NodeState, entries: seq<Meta>, k: nat, clock: Timestamp)
  {
    NotBefore(clock, n.clock) && clock.counter < COUNTER_LIMIT - 2 * |entries| + 2 * k
  }

  lemma JudgeAdvancesClock(cfg: Config, rows: Rows, acc: Acc, remote: Meta, input: Input)
    requires Room(acc.clock, 2) && Room(remote.version.hlc, 2)
    ensures var j := Judge(cfg, rows, acc, remote, input);
            && NotBefore(j.acc.clock, acc.clock)
            && (!j.fate.Rejected? ==> Precedes(remote.version.hlc, j.acc.clock))
            && j.acc.clock.counter <= Max(acc.clock.counter, remote.version.hlc.counter) + 2
  {
  }

  /** The conflict copy, if any, that one entry puts in the batch. */
  function Kept(cfg: Config, rows: Rows, clock: Timestamp, remote: Meta, at: int64): (kept: seq<Meta>)
    ensures |kept| <= 1
  {
    if remote.path in rows && Resolve(Some(rows[remote.path]), remote).Conflict? then
      [CopyOf(cfg, rows[remote.path], Tick(clock, at))]
    else []
  }

  /** How one entry changes the batch, by its fate. */
  lemma JudgeExtendsBatch(cfg: Config, rows: Rows, acc: Acc, remote: Meta, input: Input)
    ensures var j := Judge(cfg, rows, acc, remote, input);
            var seen := Merge(acc.clock, remote.version.hlc, input.observeAt);
            if j.fate.Rejected? || j.fate.Skipped? then j.acc.batch == acc.batch && j.acc.blobs == acc.blobs
            else
              && Valid(cfg, remote) && seen.Some?
              && var kept := Kept(cfg, rows, seen.value, remote, input.copyAt);
                 j.acc.batch == acc.batch + kept + (if j.fate.Stored? then [remote] else [])
  {
    hide Valid, ConflictName;
    var j := Judge(cfg, rows, acc, remote, input);
    if !j.fate.Rejected? && !j.fate.Skipped? {
      var seen := Merge(acc.clock, remote.version.hlc, input.observeAt).value;
      assert acc.batch + [] == acc.batch;
    }
  }

  lemma JudgeOnlyReplacesOlder(cfg: Config, rows: Rows, acc: Acc, remote: Meta, input: Input)
    requires remote.path in rows
    requires var fate := Judge(cfg, rows, acc, remote, input).fate; fate.Stored? || fate.Deferred?
    ensures After(remote.version, rows[remote.path].version)
  {
    hide Valid, ConflictName, Merge, EnsureBlob;
    AfterIsTotal(remote.version, rows[remote.path].version);
  }

  lemma SkippedIsBehind(cfg: Config, rows: Rows, acc: Acc, remote: Meta, input: Input)
    requires Judge(cfg, rows, acc, remote, input).fate.Skipped?
    ensures remote.path in rows && AtLeast(rows[remote.path].version, remote.version)
  {
    hide Valid, ConflictName, Merge, EnsureBlob;
    AfterIsTotal(remote.version, rows[remote.path].version);
  }

  lemma KeptIsFresh(cfg: Config, rows: Rows, acc: Acc, remote: Meta, input: Input)
    requires Room(acc.clock, 2) && Room(remote.version.hlc, 2)
    requires var fate := Judge(cfg, rows, acc, remote, input).fate; fate.Stored? || fate.Deferred?
    ensures var j := Judge(cfg, rows, acc, remote, input);
            var seen := Merge(acc.clock, remote.version.hlc, input.observeAt).value;
            var kept := Kept(cfg, rows, seen, remote, input.copyAt);
            kept != [] ==>
              && Precedes(acc.clock, kept[0].version.hlc) && Precedes(remote.version.hlc, kept[0].version.hlc)
              && j.acc.clock == kept[0].version.hlc
              && IsCopyOf(cfg, rows, kept[0], remote.path)
  {
    hide Valid, ConflictName, EnsureBlob;
    var seen := Merge(acc.clock, remote.version.hlc, input.observeAt).value;
    MergeDominates(acc.clock, remote.version.hlc, input.observeAt);
    TickAdvances(seen, input.copyAt);
  }

  lemma TakenGrows(cfg: Config, n: NodeState, entries: seq<Meta>, k: nat, m: Meta)
    requires 0 < k <= |entries|
    ensures Taken(cfg, n.store.rows, entries, k - 1, m) ==> Taken(cfg, n.store.rows, entries, k, m)
    ensures IsCopy(cfg, n, entries, k - 1, m) ==> IsCopy(cfg, n, entries, k, m)
  {
    forall e | e in entries[..k - 1] ensures e in entries[..k] {
      var i :| 0 <= i < k - 1 && entries[i] == e;
      assert entries[..k][i] == e;
    }
  }

  lemma BatchGrows(cfg: Config, n: NodeState, entries: seq<Meta>, k: nat, acc: Acc, acc': Acc, m: Meta)
    requires 0 < k <= |entries| && BatchOk(cfg, n, entries, k, acc)
    requires acc'.batch == acc.batch + [m]
    requires NotBefore(acc'.clock, acc.clock) && NotBefore(acc'.clock, m.version.hlc)
    requires Taken(cfg, n.store.rows, entries, k, m) ||
             (IsCopy(cfg, n, entries, k, m) && Precedes(acc.clock, m.version.hlc))
    ensures BatchOk(cfg, n, entries, k, acc')
  {
    hide Taken, IsCopy;
    var b := acc.batch;
    assert acc'.batch[|b|] == m && forall j | 0 <= j < |b| :: acc'.batch[j] == b[j];
  }

  lemma {:induction false} PageInvariant(cfg: Config, n: NodeState, entries: seq<Meta>, inputs: seq<Input>, k: nat)
    requires NodeOk(n) && k <= |entries| == |inputs| && RoomForPage(n.clock, entries)
    ensures ClockOk(n, entries, k, AccAt(cfg, n, entries, inputs, k).clock)
    ensures BatchOk(cfg, n, entries, k, AccAt(cfg, n, entries, inputs, k))
  {
    if k > 0 {
      PageInvariant(cfg, n, entries, inputs, k - 1);
      var acc := AccAt(cfg, n, entries, inputs, k - 1);
      PageStep(cfg, n, entries, k, acc, inputs[k - 1]);
    }
  }

  lemma PageStep(cfg: Config, n: NodeState, entries: seq<Meta>, k: nat, acc: Acc, input: Input)
    requires NodeOk(n) && 0 < k <= |entries| && RoomForPage(n.clock, entries)
    requires ClockOk(n, entries, k - 1, acc.clock) && BatchOk(cfg, n, entries, k - 1, acc)
    ensures var j := Judge(cfg, n.store.rows, acc, entries[k - 1], input).acc;
            ClockOk(n, entries, k, j.clock) && BatchOk(cfg, n, entries, k, j)
  {
    var rows, remote := n.store.rows, entries[k - 1];
    var j := Judge(cfg, rows, acc, remote, input);
    JudgeAdvancesClock(cfg, rows, acc, remote, input);
    JudgeExtendsBatch(cfg, rows, acc, remote, input);
    assert BatchOk(cfg, n, entries, k, acc) by {
      forall m { TakenGrows(cfg, n, entries, k, m); }
    }
    if !j.fate.Rejected? && !j.fate.Skipped? {
      var kept := Kept(cfg, rows, Merge(acc.clock, remote.version.hlc, input.observeAt).value, remote, input.copyAt);
      KeptIsFresh(cfg, rows, acc, remote, input);
      if remote.path in rows {
        JudgeOnlyReplacesOlder(cfg, rows, acc, remote, input);
      }
      assert entries[..k][k - 1] == remote;
      BatchStep(cfg, n, entries, k, acc, j, kept, remote);
    }
  }

  lemma BatchStep(cfg: Config, n: NodeState, entries: seq<Meta>, k: nat, acc: Acc, j: Judged, kept: seq<Meta>,
                  remote: Meta)
    requires 0 < k <= |entries| && BatchOk(cfg, n, entries, k, acc) && NotBefore(acc.clock, n.clock)
    requires j.acc.batch == acc.batch + kept + (if j.fate.Stored? then [remote] else [])
    requires |kept| <= 1 && NotBefore(j.acc.clock, acc.clock) && Precedes(remote.version.hlc, j.acc.clock)
    requires remote in entries[..k]
    requires kept != [] ==> Precedes(acc.clock, kept[0].version.hlc) && j.acc.clock == kept[0].version.hlc
    requires kept != [] ==> IsCopyOf(cfg, n.store.rows, kept[0], remote.path)
    requires Taken(cfg, n.store.rows, entries, k, remote)
    ensures BatchOk(cfg, n, entries, k, j.acc)
  {
    hide Taken, IsCopyOf;
    var mid := if kept == [] then acc else acc.(clock := j.acc.clock, batch := acc.batch + kept);
    if kept != [] {
      assert kept == [kept[0]];
      BatchGrows(cfg, n, entries, k, acc, mid, kept[0]);
    } else {
      assert acc.batch + kept == acc.batch;
    }
    if j.fate.Stored? {
      BatchGrows(cfg, n, entries, k, mid, j.acc, remote);
    } else {
      assert j.acc.batch == mid.batch;
    }
  }
}
