/** No edit is silently lost when a page replaces it. */
module EditsKept {
  import opened Wrappers
  import opened Hlc
  import opened Path
  import opened Entry
  import opened Resolution
  import opened Store
  import opened Node
  import opened AntiEntropy
  import opened NodeFacts
  import opened PageEffects
  import opened Admission

  /** The path under which a losing row is kept. */
  function NameOf(l: Meta): string
  {
    ConflictName(l.path, l.version.origin, l.version.hlc.wall)
  }

  /** If m is filed under l's conflict name, it holds l's content. */
  predicate AgreesWithName(m: Meta, l: Meta)
  {
    m.path == NameOf(l) ==> !m.deleted && m.hash == l.hash
  }

  /**
   The naming hypothesis on one page: a path, an origin and a wall time name one
   content, so whatever is filed under the conflict name of a row that holds
   content holds that content; and node names hold no dot.
   */
  ghost predicate NamesAgree(rows: Rows, entries: seq<Meta>)
  {
    && (forall p | p in rows :: !Has(rows[p].version.origin, '.'))
    && (forall p, q | p in rows && HoldsContent(rows[p]) && q in rows :: AgreesWithName(rows[q], rows[p]))
    && (forall p, e | p in rows && HoldsContent(rows[p]) && e in entries :: AgreesWithName(e, rows[p]))
  }

  predicate InConflict(rows: Rows, m: Meta)
  {
    m.path in rows && Resolve(Some(rows[m.path]), m).Conflict?
  }

  /** m is the conflict copy of a row that one of the entries is in conflict with. */
  ghost predicate FromConflict(cfg: Config, rows: Rows, entries: seq<Meta>, m: Meta)
  {
    exists e | e in entries :: InConflict(rows, e) && IsCopyOf(cfg, rows, m, e.path)
  }

  /** All that a page commits besides its own entries is copies of rows in conflict with them. */
  lemma {:induction false} CopiesComeFromConflicts(cfg: Config, n: NodeState, entries: seq<Meta>, inputs: seq<Input>,
                                                   k: nat)
    requires k <= |entries| == |inputs|
    ensures forall j | 0 <= j < |AccAt(cfg, n, entries, inputs, k).batch| ::
              var m := AccAt(cfg, n, entries, inputs, k).batch[j];
              m in entries || FromConflict(cfg, n.store.rows, entries, m)
  {
    hide Judge, FromConflict, ConflictName;
    if k > 0 {
      CopiesComeFromConflicts(cfg, n, entries, inputs, k - 1);
      var acc, remote, input := AccAt(cfg, n, entries, inputs, k - 1), entries[k - 1], inputs[k - 1];
      JudgeExtendsBatch(cfg, n.store.rows, acc, remote, input);
      KeptIsFromConflict(cfg, n.store.rows, acc.clock, entries, remote, input);
      assert remote in entries;
    }
  }

  lemma KeptIsFromConflict(cfg: Config, rows: Rows, clock: Timestamp, entries: seq<Meta>, remote: Meta, input: Input)
    requires remote in entries
    ensures var seen := Merge(clock, remote.version.hlc, input.observeAt);
            seen.Some? ==>
              forall m | m in Kept(cfg, rows, seen.value, remote, input.copyAt) :: FromConflict(cfg, rows, entries, m)
  {
    hide Merge, ConflictName;
    var seen := Merge(clock, remote.version.hlc, input.observeAt);
    if seen.Some? && InConflict(rows, remote) {
      var m := CopyOf(cfg, rows[remote.path], Tick(seen.value, input.copyAt));
      assert IsCopyOf(cfg, rows, m, remote.path);
    }
  }

  ghost predicate HasCopy(cfg: Config, rows: Rows, batch: seq<Meta>, p: string)
  {
    exists c | 0 <= c < |batch| :: IsCopyOf(cfg, rows, batch[c], p)
  }

  /** m is a copy, or a page entry whose conflict, if any, left a copy in the batch. */
  ghost predicate Accounted(cfg: Config, n: NodeState, entries: seq<Meta>, k: nat, batch: seq<Meta>, m: Meta)
    requires k <= |entries|
  {
    || IsCopy(cfg, n, entries, k, m)
    || (Taken(cfg, n.store.rows, entries, k, m) &&
        (InConflict(n.store.rows, m) ==> HasCopy(cfg, n.store.rows, batch, m.path)))
  }

  ghost predicate ConflictsCopied(cfg: Config, n: NodeState, entries: seq<Meta>, k: nat, batch: seq<Meta>)
    requires k <= |entries|
  {
    forall j | 0 <= j < |batch| :: Accounted(cfg, n, entries, k, batch, batch[j])
  }

  lemma AccountedGrows(cfg: Config, n: NodeState, entries: seq<Meta>, k: nat, batch: seq<Meta>, more: seq<Meta>,
                       m: Meta)
    requires 0 < k <= |entries| && Accounted(cfg, n, entries, k - 1, batch, m)
    ensures Accounted(cfg, n, entries, k, batch + more, m)
  {
    hide Taken, IsCopy, InConflict, IsCopyOf;
    TakenGrows(cfg, n, entries, k, m);
    if HasCopy(cfg, n.store.rows, batch, m.path) {
      var c :| 0 <= c < |batch| && IsCopyOf(cfg, n.store.rows, batch[c], m.path);
      assert (batch + more)[c] == batch[c];
    }
  }

  lemma {:induction false} ConflictsAreCopied(cfg: Config, n: NodeState, entries: seq<Meta>, inputs: seq<Input>, k: nat)
    requires PageReady(cfg, n, entries, inputs) && k <= |entries|
    ensures ConflictsCopied(cfg, n, entries, k, AccAt(cfg, n, entries, inputs, k).batch)
  {
    if k > 0 {
      ConflictsAreCopied(cfg, n, entries, inputs, k - 1);
      PageInvariant(cfg, n, entries, inputs, k - 1);
      CopyStep(cfg, n, entries, k, AccAt(cfg, n, entries, inputs, k - 1), inputs[k - 1]);
    }
    hide Judge;
  }

  lemma CopyStep(cfg: Config, n: NodeState, entries: seq<Meta>, k: nat, acc: Acc, input: Input)
    requires NodeOk(n) && 0 < k <= |entries| && RoomForPage(n.clock, entries)
    requires ClockOk(n, entries, k - 1, acc.clock) && ConflictsCopied(cfg, n, entries, k - 1, acc.batch)
    ensures ConflictsCopied(cfg, n, entries, k, Judge(cfg, n.store.rows, acc, entries[k - 1], input).acc.batch)
  {
    hide Judge, Valid, Merge, CopyOf, IsCopyOf, Resolve;
    var rows, remote := n.store.rows, entries[k - 1];
    var j := Judge(cfg, rows, acc, remote, input);
    JudgeExtendsBatch(cfg, rows, acc, remote, input);
    var more: seq<Meta> := [];
    if !j.fate.Rejected? && !j.fate.Skipped? {
      var kept := Kept(cfg, rows, Merge(acc.clock, remote.version.hlc, input.observeAt).value, remote, input.copyAt);
      KeptIsFresh(cfg, rows, acc, remote, input);
      if remote.path in rows {
        JudgeOnlyReplacesOlder(cfg, rows, acc, remote, input);
      }
      assert entries[..k][k - 1] == remote;
      more := kept + (if j.fate.Stored? then [remote] else []);
      NewAccounted(cfg, n, entries, k, acc.batch, kept, remote, more);
    }
    assert j.acc.batch == acc.batch + more;
    forall i | 0 <= i < |j.acc.batch| ensures Accounted(cfg, n, entries, k, j.acc.batch, j.acc.batch[i]) {
      if i < |acc.batch| {
        AccountedGrows(cfg, n, entries, k, acc.batch, more, acc.batch[i]);
      } else {
        assert j.acc.batch[i] == more[i - |acc.batch|];
      }
    }
  }

  lemma NewAccounted(cfg: Config, n: NodeState, entries: seq<Meta>, k: nat, batch: seq<Meta>, kept: seq<Meta>,
                     remote: Meta, more: seq<Meta>)
    requires k <= |entries| && |kept| <= 1 && remote in entries[..k]
    requires Taken(cfg, n.store.rows, entries, k, remote)
    requires kept != [] ==> IsCopyOf(cfg, n.store.rows, kept[0], remote.path)
    requires kept != [] ==> Precedes(n.clock, kept[0].version.hlc)
    requires InConflict(n.store.rows, remote) ==> kept != []
    requires more == kept || more == kept + [remote]
    ensures forall i | 0 <= i < |more| :: Accounted(cfg, n, entries, k, batch + more, more[i])
  {
    hide Taken, InConflict, IsCopyOf;
    if kept != [] {
      assert (batch + more)[|batch|] == kept[0];
    }
  }

  /** Where the content of l can still be found: at its path, as what its path's author replaced, or as a copy. */
  predicate EditKept(l: Meta, after: Rows)
  {
    || (l.path in after && l.hash in {after[l.path].hash, after[l.path].prevHash})
    || (NameOf(l) in after && HoldsContent(after[NameOf(l)]) && after[NameOf(l)].hash == l.hash)
  }

  /**
   No silently lost edit: when a page replaces a row that holds content, the
   commit keeps that content under the row's conflict name, or the replacing row
   carries it, or its author had replaced exactly that content.
   */
  lemma PageKeepsEdits(cfg: Config, n: NodeState, entries: seq<Meta>, inputs: seq<Input>, p: string)
    requires PageReady(cfg, n, entries, inputs) && NamesAgree(n.store.rows, entries)
    requires p in n.store.rows && HoldsContent(n.store.rows[p])
    ensures EditKept(n.store.rows[p], ApplyRemote(cfg, n, entries, inputs).node.store.rows)
  {
    hide AccAt, ConflictName;
    var a := ApplyRemote(cfg, n, entries, inputs);
    var rows, after, l := n.store.rows, a.node.store.rows, n.store.rows[p];
    ConflictsAreCopied(cfg, n, entries, inputs, |entries|);
    RowAfterPage(cfg, n, entries, inputs, p);
    assert entries[..|entries|] == entries;
    var i := LastIndex(a.batch, |a.batch|, p);
    if i >= 0 {
      var m := a.batch[i];
      if IsCopy(cfg, n, entries, |entries|, m) {
        var e :| e in entries[..|entries|] && IsCopyOf(cfg, rows, m, e.path);
        assert AgreesWithName(l, rows[e.path]);
      } else if InConflict(rows, m) {
        var c :| 0 <= c < |a.batch| && IsCopyOf(cfg, rows, a.batch[c], p);
        CopySurvives(cfg, n, entries, inputs, p, c);
      } else {
        AcceptIsSafe(l, m);
        AfterIsTotal(m.version, l.version);
      }
    }
  }

  /** A copy put in the batch is still there, under its name and with its content, when the page is committed. */
  lemma CopySurvives(cfg: Config, n: NodeState, entries: seq<Meta>, inputs: seq<Input>, p: string, c: nat)
    requires PageReady(cfg, n, entries, inputs) && NamesAgree(n.store.rows, entries)
    requires var a := ApplyRemote(cfg, n, entries, inputs);
             c < |a.batch| && IsCopyOf(cfg, n.store.rows, a.batch[c], p)
    ensures EditKept(n.store.rows[p], ApplyRemote(cfg, n, entries, inputs).node.store.rows)
  {
    hide AccAt, ConflictName;
    var a := ApplyRemote(cfg, n, entries, inputs);
    var rows, l := n.store.rows, n.store.rows[p];
    var q := NameOf(l);
    assert a.batch[c].path == q;
    RowAfterPage(cfg, n, entries, inputs, q);
    ConflictsAreCopied(cfg, n, entries, inputs, |entries|);
    assert entries[..|entries|] == entries;
    var m := a.batch[LastIndex(a.batch, |a.batch|, q)];
    if IsCopy(cfg, n, entries, |entries|, m) {
      var e :| e in entries[..|entries|] && IsCopyOf(cfg, rows, m, e.path);
      var l' := rows[e.path];
      ConflictNameInjective(l.path, l.version.origin, l.version.hlc.wall,
                            l'.path, l'.version.origin, l'.version.hlc.wall);
      assert l' == l;
    } else {
      assert m in entries;
      assert AgreesWithName(m, l);
    }
  }

  /* ----- the copy, field by field ----- */

  /** m preserves the row that entry e is in conflict with, stamped after e and after all the node had seen. */
  predicate CopyFor(cfg: Config, n: NodeState, e: Meta, m: Meta)
  {
    && InConflict(n.store.rows, e) && Preserves(cfg.node, n.store.rows[e.path], m) && m.pos == 0
    && Precedes(e.version.hlc, m.version.hlc) && Precedes(n.clock, m.version.hlc)
  }

  ghost predicate HasCopyFor(cfg: Config, n: NodeState, batch: seq<Meta>, e: Meta)
  {
    exists c | 0 <= c < |batch| :: CopyFor(cfg, n, e, batch[c])
  }

  ghost predicate IsCopyForSome(cfg: Config, n: NodeState, entries: seq<Meta>, m: Meta)
  {
    exists e | e in entries :: CopyFor(cfg, n, e, m)
  }

  lemma ConflictIsNews(rows: Rows, e: Meta)
    ensures InConflict(rows, e) ==> !Known(rows, e)
  {
    if e.path in rows {
      AfterIsTotal(e.version, rows[e.path].version);
    }
  }

  /** What one entry adds to the batch. */
  predicate MoreCopies(cfg: Config, n: NodeState, e: Meta, input: Input, more: seq<Meta>)
  {
    && (forall c | 0 <= c < |more| :: more[c] == e || CopyFor(cfg, n, e, more[c]))
    && (InConflict(n.store.rows, e) && !Refused(cfg, e, input.observeAt) ==>
          exists c | 0 <= c < |more| :: CopyFor(cfg, n, e, more[c]))
  }

  lemma OneEntryCopies(cfg: Config, n: NodeState, entries: seq<Meta>, k: nat, acc: Acc, input: Input)
    requires NodeOk(n) && 0 < k <= |entries| && RoomForPage(n.clock, entries)
    requires ClockOk(n, entries, k - 1, acc.clock)
    ensures exists more :: Judge(cfg, n.store.rows, acc, entries[k - 1], input).acc.batch == acc.batch + more
                           && MoreCopies(cfg, n, entries[k - 1], input, more)
  {
    hide Judge, Refused, Known, Missing, Arrives, Valid, Merge, CopyOf, Preserves;
    var rows, e := n.store.rows, entries[k - 1];
    var j := Judge(cfg, rows, acc, e, input);
    FateIsExact(cfg, rows, acc, e, input);
    JudgeExtendsBatch(cfg, rows, acc, e, input);
    if j.fate.Rejected? || j.fate.Skipped? {
      assert acc.batch == acc.batch + [];
      ConflictIsNews(rows, e);
      assert MoreCopies(cfg, n, e, input, []);
    } else {
      var kept := Kept(cfg, rows, Merge(acc.clock, e.version.hlc, input.observeAt).value, e, input.copyAt);
      KeptIsFresh(cfg, rows, acc, e, input);
      var more := kept + (if j.fate.Stored? then [e] else []);
      assert j.acc.batch == acc.batch + more;
      if InConflict(rows, e) {
        assert CopyFor(cfg, n, e, kept[0]) && more[0] == kept[0];
      }
      assert MoreCopies(cfg, n, e, input, more);
    }
  }

  /** Every one of the first k entries that conflicts and is not refused has its copy in the batch. */
  ghost predicate AllCopied(cfg: Config, n: NodeState, entries: seq<Meta>, inputs: seq<Input>, k: nat, batch: seq<Meta>)
    requires k <= |entries| == |inputs|
  {
    forall i | 0 <= i < k && InConflict(n.store.rows, entries[i])
               && !Refused(cfg, entries[i], inputs[i].observeAt) ::
      HasCopyFor(cfg, n, batch, entries[i])
  }

  ghost predicate OnlyCopies(cfg: Config, n: NodeState, entries: seq<Meta>, batch: seq<Meta>)
  {
    forall j | 0 <= j < |batch| :: batch[j] in entries || IsCopyForSome(cfg, n, entries, batch[j])
  }

  lemma CopiesGrow(cfg: Config, n: NodeState, entries: seq<Meta>, inputs: seq<Input>, k: nat, batch: seq<Meta>,
                   more: seq<Meta>)
    requires 0 < k <= |entries| == |inputs| && MoreCopies(cfg, n, entries[k - 1], inputs[k - 1], more)
    requires AllCopied(cfg, n, entries, inputs, k - 1, batch) && OnlyCopies(cfg, n, entries, batch)
    ensures AllCopied(cfg, n, entries, inputs, k, batch + more) && OnlyCopies(cfg, n, entries, batch + more)
  {
    hide CopyFor, InConflict, Refused;
    var e, all := entries[k - 1], batch + more;
    assert e in entries;
    forall i | 0 <= i < k && InConflict(n.store.rows, entries[i]) && !Refused(cfg, entries[i], inputs[i].observeAt)
      ensures HasCopyFor(cfg, n, all, entries[i])
    {
      if i < k - 1 {
        assert HasCopyFor(cfg, n, batch, entries[i]);
        var c :| 0 <= c < |batch| && CopyFor(cfg, n, entries[i], batch[c]);
        assert all[c] == batch[c];
      } else {
        var c :| 0 <= c < |more| && CopyFor(cfg, n, e, more[c]);
        assert all[|batch| + c] == more[c];
      }
    }
    forall j | 0 <= j < |all| ensures all[j] in entries || IsCopyForSome(cfg, n, entries, all[j]) {
      if j < |batch| {
        assert all[j] == batch[j];
      } else {
        assert all[j] == more[j - |batch|];
      }
    }
  }

  /**
   The conflict copies a page makes: one for every entry that conflicts and is not
   refused, whether its content arrives or not, and no others. Each is the losing row,
   field by field, under its conflict name, stamped by this node after the entry.
   */
  lemma {:induction false} CopiesAreExact(cfg: Config, n: NodeState, entries: seq<Meta>, inputs: seq<Input>, k: nat)
    requires PageReady(cfg, n, entries, inputs) && k <= |entries|
    ensures var batch := AccAt(cfg, n, entries, inputs, k).batch;
            AllCopied(cfg, n, entries, inputs, k, batch) && OnlyCopies(cfg, n, entries, batch)
  {
    hide NodeOk, RoomForPage, MoreCopies, ClockOk, BatchOk, AllCopied, OnlyCopies, Judge;
    if k == 0 {
      assert AccAt(cfg, n, entries, inputs, 0).batch == [];
      NoCopiesYet(cfg, n, entries, inputs);
    } else {
      CopiesAreExact(cfg, n, entries, inputs, k - 1);
      PageInvariant(cfg, n, entries, inputs, k - 1);
      var acc := AccAt(cfg, n, entries, inputs, k - 1);
      OneEntryCopies(cfg, n, entries, k, acc, inputs[k - 1]);
      var more :| Judge(cfg, n.store.rows, acc, entries[k - 1], inputs[k - 1]).acc.batch == acc.batch + more
                  && MoreCopies(cfg, n, entries[k - 1], inputs[k - 1], more);
      CopiesGrow(cfg, n, entries, inputs, k, acc.batch, more);
    }
  }

  lemma NoCopiesYet(cfg: Config, n: NodeState, entries: seq<Meta>, inputs: seq<Input>)
    requires |entries| == |inputs|
    ensures AllCopied(cfg, n, entries, inputs, 0, []) && OnlyCopies(cfg, n, entries, [])
  {
  }

  lemma SameNameSameRow(rows: Rows, p: string, q: string)
    requires WellFiled(rows) && p in rows && q in rows && NameOf(rows[p]) == NameOf(rows[q])
    requires !Has(rows[p].version.origin, '.') && !Has(rows[q].version.origin, '.')
    ensures p == q
  {
    hide ConflictName;
    ConflictNameInjective(rows[p].path, rows[p].version.origin, rows[p].version.hlc.wall,
                          rows[q].path, rows[q].version.origin, rows[q].version.hlc.wall);
  }

  /**
   What a conflict leaves behind: once the page is committed, the losing row stands under
   its conflict name with kind, content, size, mode and owner as they were, as a write of
   this node after all it had seen; unless the page itself has an entry of that name.
   */
  lemma ConflictLeavesCopy(cfg: Config, n: NodeState, entries: seq<Meta>, inputs: seq<Input>, i: nat)
    requires PageReady(cfg, n, entries, inputs) && i < |entries|
    requires forall p | p in n.store.rows :: !Has(n.store.rows[p].version.origin, '.')
    requires InConflict(n.store.rows, entries[i]) && !Refused(cfg, entries[i], inputs[i].observeAt)
    requires forall e | e in entries :: e.path != NameOf(n.store.rows[entries[i].path])
    ensures var l, after := n.store.rows[entries[i].path], ApplyRemote(cfg, n, entries, inputs).node.store.rows;
            && NameOf(l) in after && Preserves(cfg.node, l, after[NameOf(l)])
            && Precedes(n.clock, after[NameOf(l)].version.hlc)
  {
    hide AccAt, ConflictName, Resolve, Refused, RoomForPage, NodeOk, WellFormed, Apply, NotBefore;
    FormedOf(n);
    var rows, l, a := n.store.rows, n.store.rows[entries[i].path], ApplyRemote(cfg, n, entries, inputs);
    CopiesAreExact(cfg, n, entries, inputs, |entries|);
    assert HasCopyFor(cfg, n, a.batch, entries[i]);
    var c :| 0 <= c < |a.batch| && CopyFor(cfg, n, entries[i], a.batch[c]);
    assert a.batch[c].path == NameOf(l);
    RowAfterPage(cfg, n, entries, inputs, NameOf(l));
    var m := a.batch[LastIndex(a.batch, |a.batch|, NameOf(l))];
    assert IsCopyForSome(cfg, n, entries, m);
    var e :| e in entries && CopyFor(cfg, n, e, m);
    SameNameSameRow(rows, entries[i].path, e.path);
  }
}
