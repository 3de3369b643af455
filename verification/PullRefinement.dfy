/**
 The pull loop is a run of the cluster. What SyncPeer leaves in a node's store and
 clock, page by page, is what the steps of a pull leave there, with the steps the
 rest of the cluster takes meanwhile; so what holds on every run of a cluster holds
 of the loop.
 */
module PullRefinement {
  import opened Wrappers
  import opened Transport
  import opened Node
  import opened NodeFacts
  import opened AntiEntropy
  import opened Cluster

  /* ----- what others do to one node ----- */

  /** The step as one operation on node n, if it moves n. */
  ghost function OpOf(w: World, c: Cluster, n: string, a: Action): seq<NodeOp>
    requires c.nodes.Keys == w.limits.Keys && Enabled(c, a) && n in c.nodes
  {
    match a
    case Write(m, op, at) => if m == n then [LocalWrite(op, at)] else []
    case Receive(l, inputs) =>
      if l.puller == n && c.pulls[l].page.entries != [] then [OtherPage(c.pulls[l].page.entries, inputs)] else []
    case Compare(l) =>
      var g := c.pulls[l];
      var begin := BeginPull(Cfg(w, l.puller), c.nodes[l.puller], l.peer, g.digest, g.head);
      if l.puller == n && begin.done then [OtherRecord(l.peer, begin.bookmark)] else []
    case Record(l) => if l.puller == n then [OtherRecord(l.peer, c.pulls[l].bookmark)] else []
    case Sweep(m, horizon) => if m == n then [Janitor(horizon)] else []
    case _ => []
  }

  ghost function After(cfg: Config, n: NodeState, ops: seq<NodeOp>): NodeState
    requires AllShaped(ops)
  {
    RunOps(cfg, n, ops, |ops|)
  }

  lemma OneOp(cfg: Config, n: NodeState, op: NodeOp)
    requires WellShaped(op)
    ensures After(cfg, n, [op]) == RunOp(cfg, n, op)
  {
    hide RunOp;
    assert RunOps(cfg, n, [op], 0) == n && [op][0] == op;
  }

  lemma {:induction false} OpsAppend(cfg: Config, n: NodeState, ops: seq<NodeOp>, more: seq<NodeOp>, k: nat)
    requires AllShaped(ops) && AllShaped(more) && k <= |more|
    ensures AllShaped(ops + more)
    ensures RunOps(cfg, n, ops + more, |ops| + k) == RunOps(cfg, After(cfg, n, ops), more, k)
    decreases k
  {
    hide RunOp;
    var all := ops + more;
    assert forall i | 0 <= i < |all| :: WellShaped(all[i]) by {
      assert forall i | 0 <= i < |all| :: all[i] == if i < |ops| then ops[i] else more[i - |ops|];
    }
    if k == 0 {
      OpsPrefix(cfg, n, ops, more, |ops|);
    } else {
      OpsAppend(cfg, n, ops, more, k - 1);
      assert all[|ops| + k - 1] == more[k - 1];
    }
  }

  lemma {:induction false} OpsPrefix(cfg: Config, n: NodeState, ops: seq<NodeOp>, more: seq<NodeOp>, k: nat)
    requires AllShaped(ops) && AllShaped(ops + more) && k <= |ops|
    ensures RunOps(cfg, n, ops + more, k) == RunOps(cfg, n, ops, k)
  {
    hide RunOp;
    if k > 0 {
      OpsPrefix(cfg, n, ops, more, k - 1);
      assert (ops + more)[k - 1] == ops[k - 1];
    }
  }

  /** A step does to a node what its operation does. */
  lemma StepIsOp(w: World, c: Cluster, n: string, a: Action)
    requires c.nodes.Keys == w.limits.Keys && Enabled(c, a) && n in c.nodes
    ensures AllShaped(OpOf(w, c, n, a)) && Do(w, c, a).nodes.Keys == c.nodes.Keys
    ensures Do(w, c, a).nodes[n] == After(Cfg(w, n), c.nodes[n], OpOf(w, c, n, a))
  {
    hide RunLocal, ApplyRemote, Collect, Norms, StoredBy, AbsorbedPaths, RejectedRows, GetManifest, RunOps;
    NoOp(Cfg(w, n), c.nodes[n]);
    if OpOf(w, c, n, a) != [] {
      assert AllShaped(OpOf(w, c, n, a));
      OneOp(Cfg(w, n), c.nodes[n], OpOf(w, c, n, a)[0]);
      assert OpOf(w, c, n, a) == [OpOf(w, c, n, a)[0]];
    }
    hide After;
  }

  lemma NoOp(cfg: Config, n: NodeState)
    ensures AllShaped([]) && After(cfg, n, []) == n
  {
  }

  ghost function OpsOf(w: World, c: Cluster, n: string, run: seq<Action>): seq<NodeOp>
    requires Legal(w, c, run) && n in c.nodes && n in w.limits
    decreases |run|
  {
    if run == [] then []
    else
      StepIsOp(w, c, n, run[0]);
      OpOf(w, c, n, run[0]) + OpsOf(w, Do(w, c, run[0]), n, run[1..])
  }

  /** Any run does to a node what its operations do. */
  lemma {:induction false} RunIsOps(w: World, c: Cluster, n: string, run: seq<Action>)
    requires Legal(w, c, run) && n in c.nodes && n in w.limits
    ensures AllShaped(OpsOf(w, c, n, run)) && Run(w, c, run).nodes.Keys == c.nodes.Keys
    ensures Run(w, c, run).nodes[n] == After(Cfg(w, n), c.nodes[n], OpsOf(w, c, n, run))
    decreases |run|
  {
    hide Do, Enabled, OpOf, RunOps;
    if run == [] {
      NoOp(Cfg(w, n), c.nodes[n]);
    } else {
      StepIsOp(w, c, n, run[0]);
      var c1, first, rest := Do(w, c, run[0]), OpOf(w, c, n, run[0]), OpsOf(w, Do(w, c, run[0]), n, run[1..]);
      RunIsOps(w, c1, n, run[1..]);
      OpsAppend(Cfg(w, n), c.nodes[n], first, rest, |rest|);
      assert OpsOf(w, c, n, run) == first + rest;
    }
  }

  /* ----- one turn of the pull loop ----- */

  /** The cluster's pull over l stands as the loop's does. */
  ghost predicate Stands(c: Cluster, l: Link, p: Pull)
  {
    && l.puller in c.nodes && c.nodes[l.puller] == p.node && p.error == None
    && if p.done then l !in c.pulls else l in c.pulls && c.pulls[l] == Asking(p.cursor, p.bookmark)
  }

  /** What happens between asking for a page and receiving it, and what is known when it is applied. */
  datatype Turn = Turn(between: seq<Action>, inputs: seq<Input>)

  /** No step of the pull over l itself. */
  predicate Elsewhere(l: Link, a: Action)
  {
    a.Write? || a.Sweep? || a.link != l
  }

  predicate AllElsewhere(l: Link, run: seq<Action>)
  {
    forall i | 0 <= i < |run| :: Elsewhere(l, run[i])
  }

  lemma ElsewhereKeepsPull(w: World, c: Cluster, l: Link, a: Action)
    requires c.nodes.Keys == w.limits.Keys && Enabled(c, a) && Elsewhere(l, a)
    ensures (l in Do(w, c, a).pulls <==> l in c.pulls) && (l in c.pulls ==> Do(w, c, a).pulls[l] == c.pulls[l])
  {
    hide RunLocal, ApplyRemote, Collect, Norms, StoredBy, AbsorbedPaths, RejectedRows, GetManifest, BeginPull;
  }

  lemma {:induction false} AllElsewhereKeepPull(w: World, c: Cluster, l: Link, run: seq<Action>)
    requires Legal(w, c, run) && AllElsewhere(l, run)
    ensures (l in Run(w, c, run).pulls <==> l in c.pulls) && (l in c.pulls ==> Run(w, c, run).pulls[l] == c.pulls[l])
    decreases |run|
  {
    hide Do, Enabled;
    if run != [] {
      assert Elsewhere(l, run[0]);
      ElsewhereKeepsPull(w, c, l, run[0]);
      AllElsewhereKeepPull(w, Do(w, c, run[0]), l, run[1..]);
    }
  }

  /** The page is asked for, others act, and the page arrives. */
  ghost predicate Arrives(w: World, c: Cluster, l: Link, t: Turn)
  {
    && c.nodes.Keys == w.limits.Keys && l.puller in c.nodes && Enabled(c, Ask(l))
    && var c1 := Do(w, c, Ask(l));
       && Legal(w, c1, t.between) && AllElsewhere(l, t.between)
       && Enabled(Run(w, c1, t.between), Receive(l, t.inputs))
  }

  ghost function Served(c: Cluster, l: Link): Page
    requires Enabled(c, Ask(l))
  {
    GetManifest(c.nodes[l.peer].store.rows, c.pulls[l].cursor)
  }

  /** The page has been applied. */
  ghost function Received(w: World, c: Cluster, l: Link, t: Turn): Cluster
    requires Arrives(w, c, l, t)
  {
    var c1 := Do(w, c, Ask(l));
    RunIsOps(w, c1, l.puller, t.between);
    Do(w, Run(w, c1, t.between), Receive(l, t.inputs))
  }

  /** The steps of one turn. An empty page ends the pull, and no bookmark is recorded for it. */
  ghost function TurnRun(c: Cluster, l: Link, t: Turn): seq<Action>
    requires Enabled(c, Ask(l))
  {
    [Ask(l)] + t.between + [Receive(l, t.inputs)] + (if Served(c, l).entries == [] then [] else [Record(l)])
  }

  /** The same turn as the loop sees it. */
  ghost function RoundOf(w: World, c: Cluster, l: Link, t: Turn): Round
    requires Arrives(w, c, l, t)
  {
    Round(OpsOf(w, Do(w, c, Ask(l)), l.puller, t.between), Some(Served(c, l)), t.inputs)
  }

  /** When the page arrives, the puller is where its operations brought it, and the pull holds the page as served. */
  lemma PageArrives(w: World, c: Cluster, l: Link, t: Turn)
    requires Arrives(w, c, l, t)
    requires Stands(c, l, Pull(c.nodes[l.puller], c.pulls[l].cursor, c.pulls[l].bookmark, false, None))
    ensures RoundShaped(RoundOf(w, c, l, t))
    ensures var c2, q, r := Run(w, Do(w, c, Ask(l)), t.between), c.pulls[l], RoundOf(w, c, l, t);
            && c2.nodes.Keys == w.limits.Keys && l.puller in c2.nodes
            && c2.nodes[l.puller] == RunOps(Cfg(w, l.puller), c.nodes[l.puller], r.others, |r.others|)
            && l in c2.pulls && c2.pulls[l].Holding?
            && c2.pulls[l].cursor == q.cursor && c2.pulls[l].bookmark == q.bookmark
            && c2.pulls[l].page == Served(c, l)
  {
    var c1 := Do(w, c, Ask(l));
    assert c1.nodes == c.nodes;
    RunIsOps(w, c1, l.puller, t.between);
    AllElsewhereKeepPull(w, c1, l, t.between);
    hide Legal, Run, OpsOf, RunOps, GetManifest, RoomForPage;
  }

  ghost function AfterTurn(w: World, c: Cluster, l: Link, t: Turn): Cluster
    requires Arrives(w, c, l, t)
  {
    var c3 := Received(w, c, l, t);
    if Served(c, l).entries == [] || !Enabled(c3, Record(l)) then c3 else DoRecord(c3, l)
  }

  /** An arriving page does to the node and its pull what the loop does with it. */
  lemma PageIsApplied(w: World, c: Cluster, l: Link, p: Pull, page: Page, inputs: seq<Input>)
    requires Enabled(c, Receive(l, inputs)) && l.puller in w.limits && !p.done && p.error == None
    requires c.nodes[l.puller] == p.node && c.pulls[l].page == page
    requires c.pulls[l].cursor == p.cursor && c.pulls[l].bookmark == p.bookmark
    ensures var c3, r := DoReceive(w, c, l, inputs), Round([], Some(page), inputs);
            && RoundShaped(r)
            && if page.entries == [] then Stands(c3, l, PullRound(Cfg(w, l.puller), l.peer, p, r))
               else Enabled(c3, Record(l)) && Stands(DoRecord(c3, l), l, PullRound(Cfg(w, l.puller), l.peer, p, r))
  {
    hide ApplyRemote, Norms, StoredBy, AbsorbedPaths, RejectedRows, RoomForPage;
    assert RunOps(Cfg(w, l.puller), p.node, [], 0) == p.node;
  }

  lemma OthersFirst(cfg: Config, peer: string, p: Pull, others: seq<NodeOp>, page: Page, inputs: seq<Input>)
    requires AllShaped(others) && |page.entries| == |inputs| && !p.done
    ensures RoundShaped(Round(others, Some(page), inputs)) && RoundShaped(Round([], Some(page), inputs))
    ensures PullRound(cfg, peer, p, Round(others, Some(page), inputs))
         == PullRound(cfg, peer, p.(node := RunOps(cfg, p.node, others, |others|)), Round([], Some(page), inputs))
  {
    hide ApplyRemote;
    var n := RunOps(cfg, p.node, others, |others|);
    assert RunOps(cfg, n, [], 0) == n;
    hide RunOps;
  }

  /** One turn of the cluster's pull is one round of the loop. */
  lemma TurnIsRound(w: World, c: Cluster, l: Link, t: Turn, p: Pull)
    requires Arrives(w, c, l, t) && Stands(c, l, p)
    ensures RoundShaped(RoundOf(w, c, l, t)) && !p.done
    ensures var c' := AfterTurn(w, c, l, t);
            c'.nodes.Keys == w.limits.Keys && Stands(c', l, PullRound(Cfg(w, l.puller), l.peer, p, RoundOf(w, c, l, t)))
    ensures Served(c, l).entries != [] ==> Enabled(Received(w, c, l, t), Record(l))
  {
    PageArrives(w, c, l, t);
    var c2, r := Run(w, Do(w, c, Ask(l)), t.between), RoundOf(w, c, l, t);
    StepIsOp(w, c2, l.puller, Receive(l, t.inputs));
    var n := RunOps(Cfg(w, l.puller), p.node, r.others, |r.others|);
    OthersFirst(Cfg(w, l.puller), l.peer, p, r.others, Served(c, l), t.inputs);
    PageIsApplied(w, c2, l, p.(node := n), Served(c, l), t.inputs);
    hide PullRound, Served, OpsOf, RunOps, DoReceive, RoomForPage, OpOf;
  }

  /* ----- the runs ----- */

  lemma {:induction false} RunsAppend(w: World, c: Cluster, run: seq<Action>, more: seq<Action>)
    requires Legal(w, c, run) && Legal(w, Run(w, c, run), more)
    ensures Legal(w, c, run + more) && Run(w, c, run + more) == Run(w, Run(w, c, run), more)
    decreases |run|
  {
    hide Do, Enabled;
    if run == [] {
      assert run + more == more;
    } else {
      assert (run + more)[0] == run[0] && (run + more)[1..] == run[1..] + more;
      RunsAppend(w, Do(w, c, run[0]), run[1..], more);
    }
  }

  lemma OneStep(w: World, c: Cluster, a: Action)
    requires c.nodes.Keys == w.limits.Keys && Enabled(c, a)
    ensures Legal(w, c, [a]) && Run(w, c, [a]) == Do(w, c, a)
  {
    hide Do, Enabled;
    assert [a][0] == a && [a][1..] == [];
    assert Legal(w, Do(w, c, a), []) && Run(w, Do(w, c, a), []) == Do(w, c, a);
  }

  lemma StepsAround(w: World, c: Cluster, a: Action, between: seq<Action>, b: Action)
    requires c.nodes.Keys == w.limits.Keys && Enabled(c, a) && Legal(w, Do(w, c, a), between)
    requires var c2 := Run(w, Do(w, c, a), between); c2.nodes.Keys == w.limits.Keys && Enabled(c2, b)
    ensures Legal(w, c, [a] + between + [b])
    ensures Run(w, c, [a] + between + [b]) == Do(w, Run(w, Do(w, c, a), between), b)
  {
    hide Do, Enabled, Legal, Run;
    OneStep(w, c, a);
    RunsAppend(w, c, [a], between);
    OneStep(w, Run(w, Do(w, c, a), between), b);
    RunsAppend(w, c, [a] + between, [b]);
  }

  lemma ArrivesAsks(w: World, c: Cluster, l: Link, t: Turn)
    requires Arrives(w, c, l, t)
    ensures Enabled(c, Ask(l)) && l.puller in c.nodes && l.puller in w.limits
  {
  }

  lemma AfterTurnIs(w: World, c: Cluster, l: Link, t: Turn)
    requires Arrives(w, c, l, t)
    ensures var c3 := Received(w, c, l, t);
            if Served(c, l).entries != [] && Enabled(c3, Record(l)) then
              c3.nodes.Keys == w.limits.Keys ==> AfterTurn(w, c, l, t) == Do(w, c3, Record(l))
            else AfterTurn(w, c, l, t) == c3
  {
    hide Received, Served;
  }

  lemma ReceivedKeys(w: World, c: Cluster, l: Link, t: Turn)
    requires Arrives(w, c, l, t)
    ensures Legal(w, Do(w, c, Ask(l)), t.between)
    ensures var c2 := Run(w, Do(w, c, Ask(l)), t.between);
            && c2.nodes.Keys == w.limits.Keys && Enabled(c2, Receive(l, t.inputs))
            && Received(w, c, l, t) == Do(w, c2, Receive(l, t.inputs))
            && Received(w, c, l, t).nodes.Keys == w.limits.Keys
  {
    hide Do, Run;
    var c1 := Do(w, c, Ask(l));
    StepIsOp(w, c, l.puller, Ask(l));
    RunIsOps(w, c1, l.puller, t.between);
    StepIsOp(w, Run(w, c1, t.between), l.puller, Receive(l, t.inputs));
  }

  /** The steps of a turn are a run of the cluster. */
  lemma TurnIsLegal(w: World, c: Cluster, l: Link, t: Turn, p: Pull)
    requires Arrives(w, c, l, t) && Stands(c, l, p)
    ensures Enabled(c, Ask(l)) && Legal(w, c, TurnRun(c, l, t)) && Run(w, c, TurnRun(c, l, t)) == AfterTurn(w, c, l, t)
  {
    hide Do, Legal, Run, Stands, PullRound, Served, OpsOf, RunOps, RoundOf, OpOf, AfterTurn, Received, RoomForPage;
    TurnIsRound(w, c, l, t, p);
    ReceivedKeys(w, c, l, t);
    AfterTurnIs(w, c, l, t);
    var c3 := Received(w, c, l, t);
    StepsAround(w, c, Ask(l), t.between, Receive(l, t.inputs));
    hide Arrives;
    var run := [Ask(l)] + t.between + [Receive(l, t.inputs)];
    if Served(c, l).entries == [] {
      assert TurnRun(c, l, t) == run;
    } else {
      OneStep(w, c3, Record(l));
      RunsAppend(w, c, run, [Record(l)]);
    }
  }

  ghost predicate AllArrive(w: World, c: Cluster, l: Link, turns: seq<Turn>)
    decreases |turns|
  {
    turns == [] || (Arrives(w, c, l, turns[0]) && AllArrive(w, AfterTurn(w, c, l, turns[0]), l, turns[1..]))
  }

  ghost function TurnsRun(w: World, c: Cluster, l: Link, turns: seq<Turn>): seq<Action>
    requires AllArrive(w, c, l, turns)
    decreases |turns|
  {
    if turns == [] then []
    else TurnRun(c, l, turns[0]) + TurnsRun(w, AfterTurn(w, c, l, turns[0]), l, turns[1..])
  }

  ghost function RoundsOf(w: World, c: Cluster, l: Link, turns: seq<Turn>): seq<Round>
    requires AllArrive(w, c, l, turns)
    decreases |turns|
  {
    if turns == [] then []
    else [RoundOf(w, c, l, turns[0])] + RoundsOf(w, AfterTurn(w, c, l, turns[0]), l, turns[1..])
  }

  predicate RoundsShaped(rounds: seq<Round>)
  {
    forall i | 0 <= i < |rounds| :: RoundShaped(rounds[i])
  }

  ghost function AfterRounds(cfg: Config, peer: string, p: Pull, rounds: seq<Round>): Pull
    requires RoundsShaped(rounds)
  {
    PullRounds(cfg, peer, p, rounds, |rounds|)
  }

  lemma {:induction false} FirstRoundFirst(cfg: Config, peer: string, p: Pull, r: Round, rounds: seq<Round>, k: nat)
    requires RoundShaped(r) && RoundsShaped(rounds) && k <= |rounds|
    ensures RoundsShaped([r] + rounds)
    ensures PullRounds(cfg, peer, p, [r] + rounds, k + 1)
         == PullRounds(cfg, peer, PullRound(cfg, peer, p, r), rounds, k)
    decreases k
  {
    hide PullRound;
    var all := [r] + rounds;
    assert all[0] == r && forall i | 0 < i < |all| :: all[i] == rounds[i - 1];
    if k == 0 {
      assert PullRounds(cfg, peer, p, all, 0) == p;
    } else {
      FirstRoundFirst(cfg, peer, p, r, rounds, k - 1);
      assert all[k] == rounds[k - 1];
    }
  }

  /** Turn after turn, cluster and loop stay together. */
  lemma {:induction false} TurnsAreRounds(w: World, c: Cluster, l: Link, turns: seq<Turn>, p: Pull)
    requires AllArrive(w, c, l, turns) && Stands(c, l, p) && c.nodes.Keys == w.limits.Keys
    ensures Legal(w, c, TurnsRun(w, c, l, turns)) && RoundsShaped(RoundsOf(w, c, l, turns))
    ensures Stands(Run(w, c, TurnsRun(w, c, l, turns)), l,
                   AfterRounds(Cfg(w, l.puller), l.peer, p, RoundsOf(w, c, l, turns)))
    decreases |turns|
  {
    hide Stands, Arrives, AfterTurn, TurnRun, RoundOf, PullRound, RoundShaped, RoundsShaped, AfterRounds, TurnsRun,
      RoundsOf, Legal, Run, Enabled;
    PullerIsNode(c, l, p);
    if turns == [] {
      NothingLeft(w, c, l, p);
    } else {
      var c', r, rest := AfterTurn(w, c, l, turns[0]), RoundOf(w, c, l, turns[0]), turns[1..];
      ArrivesAsks(w, c, l, turns[0]);
      TurnIsRound(w, c, l, turns[0], p);
      TurnIsLegal(w, c, l, turns[0], p);
      TurnsAreRounds(w, c', l, rest, PullRound(Cfg(w, l.puller), l.peer, p, r));
      RunsAppend(w, c, TurnRun(c, l, turns[0]), TurnsRun(w, c', l, rest));
      FirstTurnFirst(w, c, l, turns);
      RoundsCons(Cfg(w, l.puller), l.peer, p, r, RoundsOf(w, c', l, rest));
    }
  }

  lemma FirstTurnFirst(w: World, c: Cluster, l: Link, turns: seq<Turn>)
    requires AllArrive(w, c, l, turns) && turns != [] && Enabled(c, Ask(l))
    ensures var c', rest := AfterTurn(w, c, l, turns[0]), turns[1..];
            && AllArrive(w, c', l, rest)
            && TurnsRun(w, c, l, turns) == TurnRun(c, l, turns[0]) + TurnsRun(w, c', l, rest)
            && RoundsOf(w, c, l, turns) == [RoundOf(w, c, l, turns[0])] + RoundsOf(w, c', l, rest)
  {
    hide Arrives, AfterTurn, TurnRun, RoundOf, Enabled;
  }

  lemma RoundsCons(cfg: Config, peer: string, p: Pull, r: Round, rounds: seq<Round>)
    requires RoundShaped(r) && RoundsShaped(rounds)
    ensures RoundsShaped([r] + rounds)
    ensures AfterRounds(cfg, peer, p, [r] + rounds) == AfterRounds(cfg, peer, PullRound(cfg, peer, p, r), rounds)
  {
    FirstRoundFirst(cfg, peer, p, r, rounds, |rounds|);
    hide PullRounds, PullRound;
  }

  lemma PullerIsNode(c: Cluster, l: Link, p: Pull)
    requires Stands(c, l, p)
    ensures l.puller in c.nodes
  {
  }

  lemma NothingLeft(w: World, c: Cluster, l: Link, p: Pull)
    requires Stands(c, l, p) && l.puller in w.limits && AllArrive(w, c, l, [])
    ensures Legal(w, c, []) && Run(w, c, []) == c && TurnsRun(w, c, l, []) == [] && RoundsOf(w, c, l, []) == []
    ensures RoundsShaped([]) && AfterRounds(Cfg(w, l.puller), l.peer, p, []) == p
  {
  }

  lemma CompareBegins(w: World, c: Cluster, l: Link)
    requires Enabled(c, Compare(l)) && c.nodes.Keys == w.limits.Keys
    ensures var c1 := DoCompare(w, c, l);
            && c1.nodes.Keys == w.limits.Keys
            && Stands(c1, l, BeginPull(Cfg(w, l.puller), c.nodes[l.puller], l.peer, c.pulls[l].digest, c.pulls[l].head))
  {
  }

  /**
   The pull loop refines the cluster. Let a pull over l have greeted its peer, and
   let it go on turn after turn, the rest of the cluster acting at will between the
   request of a page and its arrival. These steps are a run of the cluster, and at
   its end the puller's store and clock, and the state of its pull, are what SyncPeer
   leaves for the pages served and the operations the others performed.
   */
  lemma {:induction false} PullIsARun(w: World, c: Cluster, l: Link, turns: seq<Turn>)
    requires Enabled(c, Compare(l)) && c.nodes.Keys == w.limits.Keys && AllArrive(w, DoCompare(w, c, l), l, turns)
    ensures var c1 := DoCompare(w, c, l);
            var run, rounds := [Compare(l)] + TurnsRun(w, c1, l, turns), RoundsOf(w, c1, l, turns);
            var begin := BeginPull(Cfg(w, l.puller), c.nodes[l.puller], l.peer, c.pulls[l].digest, c.pulls[l].head);
            && Legal(w, c, run) && RoundsShaped(rounds)
            && var p, end := AfterRounds(Cfg(w, l.puller), l.peer, begin, rounds), Run(w, c, run);
               Stands(end, l, p) && end.nodes[l.puller] == p.node
  {
    CompareBegins(w, c, l);
    OneStep(w, c, Compare(l));
    assert Do(w, c, Compare(l)) == DoCompare(w, c, l);
    hide Legal, Run, BeginPull, DoCompare, TurnsRun, RoundsOf, AllArrive, AfterRounds, RoundsShaped, Do;
    var begin := BeginPull(Cfg(w, l.puller), c.nodes[l.puller], l.peer, c.pulls[l].digest, c.pulls[l].head);
    TurnsAreRounds(w, DoCompare(w, c, l), l, turns, begin);
    RunsAppend(w, c, [Compare(l)], TurnsRun(w, DoCompare(w, c, l), l, turns));
  }
}
