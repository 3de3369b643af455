/** The replicated metadata of one path. */
module Entry {
  import opened Hlc

  type Bytes = seq<bv8>
  type uint8 = x: int | 0 <= x < 256

  const KIND_FILE: uint8 := 1
  const KIND_DIR: uint8 := 2

  predicate ValidKind(kind: uint8)
  {
    kind == KIND_FILE || kind == KIND_DIR
  }

  /**
   prevHash is the hash this write replaced as its author saw it. pos is the row's
   (Seq) position in the serving node's own feed and is not replicated.
   */
  datatype Meta = Meta(
    path: string, kind: uint8, hash: string, prevHash: string, size: int,
    mode: bv32, uid: uint32, gid: uint32, version: Version,
    deleted: bool, deletedAt: int, pos: int)

  /** The replicated part of a row: everything but its local feed position. */
  function Norm(m: Meta): Meta
  {
    m.(pos := 0)
  }

  /** A row that holds content somebody could lose. */
  predicate HoldsContent(m: Meta)
  {
    !m.deleted && m.hash != ""
  }
}
