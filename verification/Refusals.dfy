/**
 What nodes that run this program refuse of each other: nothing for its form, but
 conflict copies whose names have grown too long.
 */
module Refusals {
  import opened Hlc
  import opened Path
  import opened Entry
  import opened Store
  import opened Transport
  import opened Node
  import opened AntiEntropy
  import opened NodeFacts
  import opened PageEffects
  import opened Admission
  import opened Cluster
  import opened ClusterInvariant
  import opened LostEdits

  /* ----- what is ever written ----- */

  /** Content hashes are 32 bytes in hex. */
  ghost predicate HexHashes(w: World)
  {
    forall content :: |w.hash(content)| == 64 && forall c | c in w.hash(content) :: c in "0123456789abcdefABCDEF"
  }

  /** The size of a write is that of content some node accepted. */
  ghost predicate Sized(w: World, m: Meta)
  {
    m.size == 0 || exists n :: n in w.limits && m.size <= w.limits[n]
  }

  /** A write has the form other nodes ask for, except that a conflict copy may have too long a name. */
  ghost predicate Fits(w: World, m: Meta)
  {
    && NamesOnly(m.path) && (Overlong(m.path) ==> IsConflictName(m.path))
    && (m.kind == 1 || m.kind == 2) && HashFits(m) && Sized(w, m)
  }

  ghost predicate AllFit(w: World, writes: set<Meta>)
  {
    forall m | m in writes :: Fits(w, m)
  }

  lemma {:induction false} NamesGrowAtTheEnd(p: string, t: string)
    requires NamesOnly(p) && !Has(t, '/') && NUL !in t && |t| > 2
    ensures NamesOnly(p + t) && Base(p + t) == Base(p) + t
  {
    SplitAppend(p, t);
    var parts, parts' := Split(p), Split(p + t);
    assert parts'[|parts'| - 1] == Base(p) + t;
    hide Split;
    forall i | 0 <= i < |parts| - 1 ensures |parts'[i]| <= 255 {
      SplitKeepsFirst(p, t, i);
    }
    forall el | el in parts' ensures el != "" && el != "." && el != ".." {
      var i :| 0 <= i < |parts'| && parts'[i] == el;
      if i < |parts| - 1 {
        SplitKeepsFirst(p, t, i);
        assert parts[i] in parts;
      } else {
        assert |el| > 2;
      }
    }
  }

  /** The tail that a conflict name puts after the path. */
  function Tail(o: string, wall: int): string
  {
    CONFLICT_MARK + (o + ("." + DecimalInt(wall)))
  }

  lemma TailIsPlain(p: string, o: string, wall: int)
    requires !Has(o, '/') && !Has(o, NUL)
    ensures ConflictName(p, o, wall) == p + Tail(o, wall)
    ensures !Has(Tail(o, wall), '/') && NUL !in Tail(o, wall)
    ensures |Tail(o, wall)| == 11 + |o| + |DecimalInt(wall)|
  {
    var number := DecimalInt(wall);
    assert forall c | c in number :: c != '/' && c != NUL;
    hide DecimalInt;
    assert !Has(CONFLICT_MARK, '/') && NUL !in CONFLICT_MARK;
    assert p + CONFLICT_MARK + o + "." + number == p + (CONFLICT_MARK + (o + ("." + number)));
  }

  /**
   A conflict copy travels exactly when its name is short enough: its base name is the
   original's, ".conflict.", the origin, a dot and the wall time, and may have no more
   than 255 bytes, as the whole path may have no more than 4096.
   */
  lemma CopyNameIsAccepted(p: string, o: string, wall: int)
    requires SanitizePath(p).Ok? && !Has(o, '/') && !Has(o, NUL)
    ensures SanitizePath(ConflictName(p, o, wall)).Ok? <==>
            && |p| + 11 + |o| + |DecimalInt(wall)| <= 4096
            && |Base(p)| + 11 + |o| + |DecimalInt(wall)| <= 255
  {
    TailIsPlain(p, o, wall);
    PathIsAccepted(p);
    hide SanitizePath, Tail, ConflictName, Base, NamesOnly;
    NamesGrowAtTheEnd(p, Tail(o, wall));
    PathIsAccepted(ConflictName(p, o, wall));
  }

  /* ----- over whole runs ----- */

  lemma LocalWriteFits(w: World, n: string, node: NodeState, op: LocalOp, at: int64)
    requires n in w.limits && HexHashes(w) && WellFiled(node.store.rows)
    requires forall p | p in node.store.rows :: Fits(w, Norm(node.store.rows[p]))
    requires RunLocal(Cfg(w, n), node, op, at).batch != []
    ensures Fits(w, Norm(RunLocal(Cfg(w, n), node, op, at).batch[0]))
  {
    WriteLands(Cfg(w, n), node, op, at);
    PathIsAccepted(op.path);
    assert op.path in node.store.rows ==> Fits(w, Norm(node.store.rows[op.path]));
    hide SanitizePath, NamesOnly, Overlong, SanitizeMode, Tick, Apply, WithBlob;
  }

  lemma WriteKeepsFit(w: World, c: Cluster, n: string, op: LocalOp, at: int64)
    requires Enabled(c, Write(n, op, at)) && n in w.limits && HexHashes(w) && AllFit(w, c.hist.writes)
    requires Inv(w, c)
    ensures AllFit(w, DoWrite(w, c, n, op, at).hist.writes)
  {
    hide Inv, RunLocal, DoWrite, HexHashes, Fits, NodeOk;
    NodeOf(w, c, n);
    FormedOf(c.nodes[n]);
    WriteShape(w, c, n, op, at);
    WriteLands(Cfg(w, n), c.nodes[n], op, at);
    var batch := RunLocal(Cfg(w, n), c.nodes[n], op, at).batch;
    if batch == [] {
      assert Norms(batch) == {};
    } else {
      assert Norms(batch) == {Norm(batch[0])};
      LocalWriteFits(w, n, c.nodes[n], op, at);
    }
  }

  lemma CopyFits(w: World, c: Cluster, l: Meta, m: Meta)
    requires Norm(l) in c.hist.writes && Fits(w, Norm(l))
    requires m.path == ConflictName(l.path, l.version.origin, l.version.hlc.wall)
    requires m.kind == l.kind && m.hash == l.hash && m.size == l.size
    requires GoodWorld(w) && Inv(w, c)
    ensures Fits(w, Norm(m))
  {
    hide Inv, GoodWorld, ConflictName, Tail, NamesOnly, Overlong, IsConflictName;
    OriginIsPlain(w, c, Norm(l));
    OriginIsNulFree(w, c, Norm(l));
    TailIsPlain(l.path, l.version.origin, l.version.hlc.wall);
    NamesGrowAtTheEnd(l.path, Tail(l.version.origin, l.version.hlc.wall));
    ConflictNameIsRecognised(l.path, l.version.origin, l.version.hlc.wall);
  }

  lemma OriginIsNulFree(w: World, c: Cluster, m: Meta)
    requires m in c.hist.writes && Inv(w, c)
    ensures !Has(m.version.origin, NUL)
  {
    assert WriteOk(c.nodes, m);
  }

  /** Whatever a page brings into being fits if all did before. */
  lemma NewWriteFits(w: World, c: Cluster, l: Link, inputs: seq<Input>, m: Meta)
    requires Enabled(c, Receive(l, inputs)) && l.puller in w.limits && AllFit(w, c.hist.writes)
    requires m in Norms(ApplyRemote(Cfg(w, l.puller), c.nodes[l.puller], c.pulls[l].page.entries, inputs).batch)
    requires GoodWorld(w) && Inv(w, c)
    ensures Fits(w, m)
  {
    hide AccAt, Apply, Inv, GoodWorld, NodeOk, Valid, ConflictName, Listed, Fits;
    ShapeOf(w, c);
    NodeOf(w, c, l.puller);
    PhaseOf(w, c, l);
    var cfg, n, entries := Cfg(w, l.puller), c.nodes[l.puller], c.pulls[l].page.entries;
    BatchFacts(cfg, n, entries, inputs);
    var batch := ApplyRemote(cfg, n, entries, inputs).batch;
    var i :| 0 <= i < |batch| && m == Norm(batch[i]);
    assert entries[..|entries|] == entries;
    if Taken(cfg, n.store.rows, entries, |entries|, batch[i]) {
      assert batch[i] in entries;
    } else {
      var e :| e in entries[..|entries|] && IsCopyOf(cfg, n.store.rows, batch[i], e.path);
      ListedAt(c.hist.writes, n.store.rows, e.path);
      CopyFits(w, c, n.store.rows[e.path], batch[i]);
    }
  }

  lemma ReceiveKeepsFit(w: World, c: Cluster, l: Link, inputs: seq<Input>)
    requires Enabled(c, Receive(l, inputs)) && l.puller in w.limits && AllFit(w, c.hist.writes)
    requires GoodWorld(w) && Inv(w, c)
    ensures AllFit(w, DoReceive(w, c, l, inputs).hist.writes)
  {
    hide DoReceive, ApplyRemote, Inv, GoodWorld, RoomForPage, Norms, Fits;
    ShapeOf(w, c);
    if c.pulls[l].page.entries == [] {
      ReceiveNothing(w, c, l, inputs);
    } else {
      ReceiveShape(w, c, l, inputs);
      var a := ApplyRemote(Cfg(w, l.puller), c.nodes[l.puller], c.pulls[l].page.entries, inputs);
      forall m | m in Norms(a.batch) ensures Fits(w, m) {
        NewWriteFits(w, c, l, inputs, m);
      }
    }
  }

  lemma ActionKeepsFit(w: World, c: Cluster, a: Action)
    requires Enabled(c, a) && c.nodes.Keys == w.limits.Keys && HexHashes(w) && AllFit(w, c.hist.writes)
    requires GoodWorld(w) && Inv(w, c)
    ensures AllFit(w, Do(w, c, a).hist.writes)
  {
    hide Inv, GoodWorld, HexHashes, Fits, DoWrite, DoReceive, BeginPull, GetManifest, RoomForPage;
    if a.Write? {
      WriteKeepsFit(w, c, a.node, a.op, a.at);
    } else if a.Receive? {
      ReceiveKeepsFit(w, c, a.link, a.inputs);
    }
  }

  lemma {:induction false} RunKeepsFit(w: World, c: Cluster, run: seq<Action>)
    requires Legal(w, c, run) && HexHashes(w) && AllFit(w, c.hist.writes)
    requires GoodWorld(w) && Inv(w, c)
    ensures AllFit(w, Run(w, c, run).hist.writes) && Inv(w, Run(w, c, run))
    decreases |run|
  {
    hide Do, Inv, Enabled, GoodWorld, HexHashes, AllFit;
    if run != [] {
      ActionKeepsInv(w, c, run[0]);
      ActionKeepsFit(w, c, run[0]);
      RunKeepsFit(w, Do(w, c, run[0]), run[1..]);
    }
  }

  lemma InitFits(w: World, c: Cluster)
    requires Init(w, c)
    ensures AllFit(w, c.hist.writes)
  {
  }

  lemma FitsExactly(w: World, m: Meta, limit: int)
    requires Fits(w, Norm(m)) && m.version.origin != ""
    ensures WellMade(m, limit) <==> m.size <= limit && !Overlong(m.path)
  {
    hide NamesOnly, Overlong, IsConflictName;
  }

  /** What is held of a page has been written, by a node that has a name. */
  lemma HeldIsWritten(w: World, c: Cluster, l: Link, i: nat)
    requires l in c.pulls && c.pulls[l].Holding? && i < |c.pulls[l].page.entries|
    requires GoodWorld(w) && Inv(w, c)
    ensures Norm(c.pulls[l].page.entries[i]) in c.hist.writes
    ensures c.pulls[l].page.entries[i].version.origin != ""
  {
    hide NodesOk, UniqueVersions;
    ShapeOf(w, c);
    PhaseOf(w, c, l);
    assert WriteOk(c.nodes, Norm(c.pulls[l].page.entries[i]));
  }

  /**
   What nodes refuse of each other. In every reachable state, an entry of a page on its
   way, live or tombstone, is refused by the puller exactly when it is larger than the
   puller's limit, when its name is too long, or when its stamp is too far ahead. Only
   conflict copies have too long a name, and what is larger than the limit is a live
   file that some other node's limit admits. Nothing is refused for its kind, its origin,
   its hash, or for being deleted.
   */
  lemma {:induction false} WhatPeersRefuse(w: World, c0: Cluster, run: seq<Action>, l: Link, inputs: seq<Input>, i: nat)
    requires GoodWorld(w) && HexHashes(w) && Init(w, c0) && Legal(w, c0, run)
    requires var c := Run(w, c0, run);
             Enabled(c, Receive(l, inputs)) && l.puller in w.limits && i < |c.pulls[l].page.entries|
    ensures var c := Run(w, c0, run);
            var m := c.pulls[l].page.entries[i];
            && (FateOf(Cfg(w, l.puller), c.nodes[l.puller], c.pulls[l].page.entries, inputs, i).Rejected? <==>
                  || m.size > w.limits[l.puller] || Overlong(m.path)
                  || TooFarAhead(m.version.hlc.wall, inputs[i].observeAt))
            && (Overlong(m.path) ==> IsConflictName(m.path))
            && (m.size == 0 || exists n :: n in w.limits && m.size <= w.limits[n])
  {
    hide Legal, Run, Init, GoodWorld, HexHashes, Inv, AllFit, Overlong, TooFarAhead, FateOf, WellMade, IsConflictName,
      NamesOnly, RoomForPage;
    InitIsInv(w, c0);
    InitFits(w, c0);
    RunKeepsFit(w, c0, run);
    var c := Run(w, c0, run);
    var m := c.pulls[l].page.entries[i];
    HeldIsWritten(w, c, l, i);
    FitOf(w, c.hist.writes, Norm(m));
    FitsExactly(w, m, w.limits[l.puller]);
    PageIsJudged(Cfg(w, l.puller), c.nodes[l.puller], c.pulls[l].page.entries, inputs, i);
  }

  lemma FitOf(w: World, writes: set<Meta>, m: Meta)
    requires AllFit(w, writes) && m in writes
    ensures Fits(w, m)
  {
    hide Fits;
  }
}
