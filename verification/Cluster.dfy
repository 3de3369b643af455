/**
 Any number of nodes replicating to each other. Every request and reply of a
 pull is a step of its own, so local writes, other pulls, collection and crashes
 may happen between any two of them. A hint from the gossip layer only means
 that some Greet step happens.

 The history records what is not in any node's state: every write ever made,
 what each author held when it wrote, what each node has heard of, and which
 entries it refused.
 */
module Cluster {
  import opened Hlc
  import opened Path
  import opened Entry
  import opened Store
  import opened Transport
  import opened Digest
  import opened Node
  import opened AntiEntropy
  import opened NodeFacts

  /** The nodes by name with their file-size limits, and the two hash functions. */
  datatype World = World(limits: map<string, int>, hash: Bytes -> string, sha: string -> string)

  /** Node names are non-empty and hold no dot, slash or NUL; hashes hold no NUL. */
  ghost predicate GoodWorld(w: World)
  {
    && (forall n | n in w.limits :: n != "" && !Has(n, '.') && !Has(n, '/') && !Has(n, NUL))
    && (forall content :: !Has(w.hash(content), NUL))
    && Injective(w.sha)
  }

  function Cfg(w: World, n: string): Config
    requires n in w.limits
  {
    Config(n, w.limits[n], w.hash, w.sha)
  }

  datatype Link = Link(puller: string, peer: string)

  /**
   How far a pull has come. Greeted carries the tree the digest was taken of,
   and Holding what the peer knew when it served the page; the protocol itself
   looks at neither.
   */
  datatype Phase =
    | Greeted(digest: string, head: int, tree: Rows)
    | Asking(cursor: int, bookmark: int)
    | Holding(cursor: int, bookmark: int, page: Page, past: set<Meta>)
    | Recording(cursor: int, bookmark: int, more: bool)

  datatype History = History(
    writes: set<Meta>, held: map<Version, string>, known: map<string, set<Meta>>, rejected: map<string, set<Meta>>)

  datatype Cluster = Cluster(nodes: map<string, NodeState>, pulls: map<Link, Phase>, hist: History)

  datatype Action =
    | Write(node: string, op: LocalOp, at: int64)
    | Greet(link: Link)
    | Compare(link: Link)
    | Ask(link: Link)
    | Receive(link: Link, inputs: seq<Input>)
    | Record(link: Link)
    | Abort(link: Link)
    | Sweep(node: string, horizon: int)

  ghost predicate Init(w: World, c: Cluster)
  {
    && c.nodes == (map n | n in w.limits :: FRESH_NODE)
    && c.pulls == map[]
    && c.hist == History({}, map[], map n | n in w.limits :: {}, map n | n in w.limits :: {})
  }

  /** A step may be taken. Clock steps need a counter that will not wrap. */
  predicate Enabled(c: Cluster, a: Action)
  {
    match a
    case Write(n, _, _) => n in c.nodes && Room(c.nodes[n].clock, 1)
    case Greet(l) => l.puller in c.nodes && l.peer in c.nodes && l.puller != l.peer && l !in c.pulls
    case Compare(l) => l in c.pulls && c.pulls[l].Greeted? && l.puller in c.nodes
    case Ask(l) => l in c.pulls && c.pulls[l].Asking? && l.peer in c.nodes && l.peer in c.hist.known
    case Receive(l, inputs) =>
      && l in c.pulls && c.pulls[l].Holding? && l.puller in c.nodes
      && |inputs| == |c.pulls[l].page.entries|
      && RoomForPage(c.nodes[l.puller].clock, c.pulls[l].page.entries)
    case Record(l) => l in c.pulls && c.pulls[l].Recording? && l.puller in c.nodes
    case Abort(l) => l in c.pulls
    case Sweep(n, _) => n in c.nodes
  }

  ghost function Norms(batch: seq<Meta>): set<Meta>
  {
    set m | m in batch :: Norm(m)
  }

  /** The paths of the page entries a node accounted for by storing them or by already being ahead. */
  ghost function AbsorbedPaths(cfg: Config, n: NodeState, entries: seq<Meta>, inputs: seq<Input>): set<string>
    requires |entries| == |inputs|
  {
    set i | 0 <= i < |entries| &&
            (FateOf(cfg, n, entries, inputs, i).Stored? || FateOf(cfg, n, entries, inputs, i).Skipped?) ::
      entries[i].path
  }

  ghost function RejectedRows(cfg: Config, n: NodeState, entries: seq<Meta>, inputs: seq<Input>): set<Meta>
    requires |entries| == |inputs|
  {
    set i | 0 <= i < |entries| && FateOf(cfg, n, entries, inputs, i).Rejected? :: Norm(entries[i])
  }

  ghost function Of<T>(m: map<string, set<T>>, n: string): set<T>
  {
    if n in m then m[n] else {}
  }

  /** The rows a batch left behind: what the node itself stored. */
  ghost function StoredBy(rows: Rows, batch: seq<Meta>): set<Meta>
  {
    set p | p in rows && Touches(batch, p) :: Norm(rows[p])
  }

  /** A node moves to a new state by committing a batch. */
  ghost function Move(c: Cluster, n: string, node: NodeState, batch: seq<Meta>): Cluster
  {
    c.(nodes := c.nodes[n := node],
       hist := c.hist.(writes := c.hist.writes + Norms(batch),
                       known := c.hist.known[n := Of(c.hist.known, n) + StoredBy(node.store.rows, batch)]))
  }

  ghost function DoWrite(w: World, c: Cluster, n: string, op: LocalOp, at: int64): Cluster
    requires n in c.nodes && n in w.limits
  {
    var o := RunLocal(Cfg(w, n), c.nodes[n], op, at);
    var c' := Move(c, n, o.node, o.batch);
    if o.batch == [] then c'
    else c'.(hist := c'.hist.(held := c'.hist.held[o.batch[0].version := HashAt(c.nodes[n].store.rows, op.path)]))
  }

  ghost function DoReceive(w: World, c: Cluster, l: Link, inputs: seq<Input>): Cluster
    requires Enabled(c, Receive(l, inputs)) && l.puller in w.limits
  {
    var h := c.pulls[l];
    if h.page.entries == [] then c.(pulls := c.pulls - {l})
    else
      var cfg, n, entries := Cfg(w, l.puller), c.nodes[l.puller], h.page.entries;
      var a := ApplyRemote(cfg, n, entries, inputs);
      var absorbed := AbsorbedPaths(cfg, n, entries, inputs);
      var heard := set m | m in h.past && m.path in absorbed :: m;
      var c' := Move(c, l.puller, a.node, a.batch);
      c'.(pulls := c.pulls[l := Recording(h.page.head, Max(h.bookmark, a.safe), h.page.more)],
          hist := c'.hist.(
            known := c'.hist.known[l.puller := c'.hist.known[l.puller] + heard],
            rejected := c.hist.rejected[l.puller := Of(c.hist.rejected, l.puller)
                                                    + RejectedRows(cfg, n, entries, inputs)]))
  }

  ghost function SetBookmark(c: Cluster, l: Link, bookmark: int): Cluster
    requires l.puller in c.nodes
  {
    c.(nodes := c.nodes[l.puller := WithBookmark(c.nodes[l.puller], l.peer, bookmark)])
  }

  ghost function DoCompare(w: World, c: Cluster, l: Link): Cluster
    requires Enabled(c, Compare(l)) && l.puller in w.limits
  {
    var g := c.pulls[l];
    var begin := BeginPull(Cfg(w, l.puller), c.nodes[l.puller], l.peer, g.digest, g.head);
    if begin.done then SetBookmark(c, l, begin.bookmark).(pulls := c.pulls - {l})
    else c.(pulls := c.pulls[l := Asking(begin.cursor, begin.bookmark)])
  }

  ghost function DoRecord(c: Cluster, l: Link): Cluster
    requires Enabled(c, Record(l))
  {
    var r := c.pulls[l];
    SetBookmark(c, l, r.bookmark).(
      pulls := if r.more then c.pulls[l := Asking(r.cursor, r.bookmark)] else c.pulls - {l})
  }

  ghost function Do(w: World, c: Cluster, a: Action): Cluster
    requires Enabled(c, a) && c.nodes.Keys == w.limits.Keys
  {
    match a
    case Write(n, op, at) => DoWrite(w, c, n, op, at)
    case Greet(l) =>
      var rows := c.nodes[l.peer].store.rows;
      c.(pulls := c.pulls[l := Greeted(DigestOf(w.sha, rows), HighestPos(All(rows), |All(rows)|), rows)])
    case Compare(l) => DoCompare(w, c, l)
    case Ask(l) =>
      var q := c.pulls[l];
      var page := GetManifest(c.nodes[l.peer].store.rows, q.cursor);
      c.(pulls := c.pulls[l := Holding(q.cursor, q.bookmark, page, c.hist.known[l.peer])])
    case Receive(l, inputs) => DoReceive(w, c, l, inputs)
    case Record(l) => DoRecord(c, l)
    case Abort(l) => c.(pulls := c.pulls - {l})
    case Sweep(n, horizon) => c.(nodes := c.nodes[n := Collect(c.nodes[n], horizon)])
  }

  /** A run is a list of actions, each of them enabled when its turn comes. */
  ghost predicate Legal(w: World, c: Cluster, run: seq<Action>)
    decreases |run|
  {
    run == [] ||
    (c.nodes.Keys == w.limits.Keys && Enabled(c, run[0]) && Legal(w, Do(w, c, run[0]), run[1..]))
  }

  ghost function Run(w: World, c: Cluster, run: seq<Action>): Cluster
    requires Legal(w, c, run)
    decreases |run|
  {
    if run == [] then c else Run(w, Do(w, c, run[0]), run[1..])
  }
}
