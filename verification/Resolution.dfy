/** The fate of one incoming remote entry against the local row for its path. */
module Resolution {
  import opened Wrappers
  import opened Hlc
  import opened Entry

  datatype Decision = Skip | Accept | Conflict

  function Resolve(local: Option<Meta>, remote: Meta): Decision
  {
    if local.None? then Accept
    else
      var l := local.value;
      if l.version == remote.version then Skip
      else if After(l.version, remote.version) then Skip
      else if l.deleted then Accept
      else if l.hash == "" then Accept
      else if remote.prevHash == l.hash then Accept
      else if remote.hash == l.hash then Accept
      else Conflict
  }

  /**
   Two nodes that hold different writes for one path and exchange them agree:
   exactly one of them moves, and it moves to the later write.
   */
  lemma ResolveConverges(a: Meta, b: Meta)
    requires a.version != b.version
    ensures Resolve(Some(a), b).Skip? <==> !Resolve(Some(b), a).Skip?
    ensures Resolve(Some(a), b).Skip? <==> After(a.version, b.version)
  {
    AfterIsTotal(a.version, b.version);
  }

  /**
   Overwriting a local row without keeping a copy is safe: the decision is
   Accept exactly when the remote write is later and either no live content is
   replaced, or the remote author replaced that very content, or wrote it again.
   */
  lemma AcceptIsSafe(l: Meta, remote: Meta)
    ensures Resolve(Some(l), remote).Accept? <==>
            After(remote.version, l.version) &&
            (HoldsContent(l) ==> l.hash in {remote.prevHash, remote.hash})
  {
    AfterIsTotal(l.version, remote.version);
  }
}
