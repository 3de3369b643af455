/** Which rows of a peer a node lets in, and what becomes of each, said on their fields. */
module Admission {
  import opened Wrappers
  import opened Hlc
  import opened Path
  import opened Entry
  import opened Store
  import opened Node
  import opened AntiEntropy

  /* ----- one entry ----- */

  /** The name or the whole path is longer than a path may be. */
  predicate Overlong(p: string)
  {
    |p| > 4096 || |Base(p)| > 255
  }

  /** Elements are names, and all but the last are short enough. */
  predicate NamesOnly(p: string)
  {
    && p != "" && NUL !in p
    && (forall el | el in Split(p) :: el != "" && el != "." && el != "..")
    && (forall i | 0 <= i < |Split(p)| - 1 :: |Split(p)[i]| <= 255)
  }

  /** The hash is missing, or 32 bytes in hex, and a directory has none. */
  predicate HashFits(m: Meta)
  {
    && (m.hash == "" || (|m.hash| == 64 && forall c | c in m.hash :: c in "0123456789abcdefABCDEF"))
    && (m.kind == 2 ==> m.hash == "")
  }

  /** A row of a form this program lets in, live or deleted. */
  predicate WellMade(m: Meta, limit: int)
  {
    && NamesOnly(m.path) && !Overlong(m.path)
    && (m.kind == 1 || m.kind == 2) && m.version.origin != "" && m.size <= limit && HashFits(m)
  }

  /** More than five minutes ahead of physical time, as a wrapping 64-bit subtraction sees it. */
  predicate TooFarAhead(wall: int, physical: int)
  {
    || 300_000_000_000 < wall - physical < 0x8000_0000_0000_0000
    || 300_000_000_000 - 0x1_0000_0000_0000_0000 < wall - physical < -0x8000_0000_0000_0000
  }

  predicate Refused(cfg: Config, m: Meta, physical: int)
  {
    !WellMade(m, cfg.maxFileSize) || TooFarAhead(m.version.hlc.wall, physical)
  }

  /** The tree has this version for the path, or a later one. */
  predicate Known(rows: Rows, m: Meta)
  {
    m.path in rows && !After(m.version, rows[m.path].version)
  }

  /** A live file whose content is not held. */
  predicate Missing(m: Meta, blobs: map<string, Bytes>)
  {
    m.kind == 1 && !m.deleted && m.hash != "" && m.hash !in blobs
  }

  /** The peer sends content of the right hash, and not too much. */
  predicate Arrives(cfg: Config, m: Meta, reply: Option<Bytes>)
  {
    reply.Some? && cfg.hash(reply.value) == m.hash && |reply.value| <= cfg.maxFileSize
  }

  lemma PathIsAccepted(p: string)
    ensures SanitizePath(p).Ok? <==> NamesOnly(p) && !Overlong(p)
  {
    SanitizeExact(p);
    var parts := Split(p);
    assert Base(p) == parts[|parts| - 1] && Base(p) in parts;
    hide SanitizePath, Split;
    if NamesOnly(p) && !Overlong(p) {
      forall el | el in parts ensures |el| <= 255 {
        var i :| 0 <= i < |parts| && parts[i] == el;
      }
    }
    if SanitizePath(p).Ok? {
      assert p != "" by {
        EmptyIsRefused();
      }
      forall i | 0 <= i < |parts| ensures PlainElement(parts[i]) {
        assert parts[i] in parts;
      }
    }
  }

  lemma EmptyIsRefused()
    ensures SanitizePath("").Err?
  {
  }

  lemma ValidExactly(cfg: Config, m: Meta)
    ensures Valid(cfg, m) <==> WellMade(m, cfg.maxFileSize)
  {
    PathIsAccepted(m.path);
    hide NamesOnly, Overlong, SanitizePath;
  }

  /**
   The fate of one entry, live or tombstone, given the rows committed and the blobs held
   when its turn comes. It is rejected exactly for its form or its stamp; skipped exactly
   when the tree is as late; deferred exactly when it wins, its content is missing and
   does not arrive; and stored in every other case. A rejected entry leaves no trace, and
   content is added exactly when it was missing and has arrived.
   */
  lemma FateIsExact(cfg: Config, rows: Rows, acc: Acc, remote: Meta, input: Input)
    ensures var j := Judge(cfg, rows, acc, remote, input);
            && (j.fate.Rejected? <==> Refused(cfg, remote, input.observeAt))
            && (j.fate.Skipped? <==> !Refused(cfg, remote, input.observeAt) && Known(rows, remote))
            && (j.fate.Deferred? <==>
                  !Refused(cfg, remote, input.observeAt) && !Known(rows, remote)
                  && Missing(remote, acc.blobs) && !Arrives(cfg, remote, input.blob))
            && (j.fate.Rejected? ==> j.acc.clock == acc.clock && j.acc.batch == acc.batch && j.acc.blobs == acc.blobs)
            && j.acc.blobs == (if j.fate.Stored? && Missing(remote, acc.blobs) then
                                 acc.blobs[remote.hash := input.blob.value] else acc.blobs)
  {
    ValidExactly(cfg, remote);
    DriftIsRefused(acc.clock, remote.version.hlc, input.observeAt);
    if remote.path in rows {
      AfterIsTotal(remote.version, rows[remote.path].version);
    }
    hide Valid, WellMade, Merge, ConflictName, Tick, After;
  }

  /** The same on a page, where an entry's turn comes after the entries before it. */
  lemma PageIsJudged(cfg: Config, n: NodeState, entries: seq<Meta>, inputs: seq<Input>, i: nat)
    requires i < |entries| == |inputs|
    ensures var fate, e := FateOf(cfg, n, entries, inputs, i), entries[i];
            var blobs := AccAt(cfg, n, entries, inputs, i).blobs;
            && (fate.Rejected? <==> Refused(cfg, e, inputs[i].observeAt))
            && (fate.Skipped? <==> !Refused(cfg, e, inputs[i].observeAt) && Known(n.store.rows, e))
            && (fate.Deferred? <==>
                  !Refused(cfg, e, inputs[i].observeAt) && !Known(n.store.rows, e)
                  && Missing(e, blobs) && !Arrives(cfg, e, inputs[i].blob))
  {
    FateIsExact(cfg, n.store.rows, AccAt(cfg, n, entries, inputs, i), entries[i], inputs[i]);
    hide Judge, Refused, Missing, Arrives, Known;
  }
}
