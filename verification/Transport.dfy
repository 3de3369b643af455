/** What one node serves another: a page of its changes feed. */
module Transport {
  import opened Entry
  import opened Store

  const MAX_MANIFEST_PAGE := 2000

  datatype Page = Page(entries: seq<Meta>, head: int, more: bool)

  /** One page: ask for one row more than fits, and cut it off again. */
  ghost function GetManifest(rows: Rows, since: int): Page
  {
    var feed := Manifest(rows, since, MAX_MANIFEST_PAGE + 1);
    var more := |feed| > MAX_MANIFEST_PAGE;
    var entries := if more then feed[..MAX_MANIFEST_PAGE] else feed;
    Page(entries, if |entries| > 0 then entries[|entries| - 1].pos else since, more)
  }

  /**
   A page tells a puller everything about the feed up to its head. It holds up to 2000
   rows, and as many as that when more remain.
   */
  ghost predicate IsPage(rows: Rows, since: int, page: Page)
  {
    && AreRows(rows, page.entries)
    && IsAscending(since, page.entries)
    && page.head == HeadOf(since, page.entries)
    && Delivered(rows, since, page.head, page.entries)
    && |page.entries| <= 2000 && (page.more ==> |page.entries| == 2000)
    && (page.more <==> exists p :: p in rows && rows[p].pos > page.head)
  }

  lemma {:induction false} ManifestPrefix(rows: Rows, since: int, n: nat, limit: nat)
    requires n <= |Manifest(rows, since, limit)|
    ensures Manifest(rows, since, n) == Manifest(rows, since, limit)[..n]
    decreases limit
  {
    if n > 0 {
      var m := NextRow(rows, since);
      ManifestPrefix(rows, m.pos, n - 1, limit - 1);
    }
  }

  /**
   The page cut: no row up to the page's head is skipped, the head is where the
   next page must start, and More is set exactly when rows remain beyond it.
   */
  lemma ManifestIsPage(st: StoreState, since: int)
    requires WellFormed(st)
    ensures IsPage(st.rows, since, GetManifest(st.rows, since))
  {
    var rows := st.rows;
    var feed := Manifest(rows, since, MAX_MANIFEST_PAGE + 1);
    ManifestIsFeed(st, since, MAX_MANIFEST_PAGE + 1);
    if |feed| > MAX_MANIFEST_PAGE {
      ManifestPrefix(rows, since, MAX_MANIFEST_PAGE, MAX_MANIFEST_PAGE + 1);
      ManifestIsFeed(st, since, MAX_MANIFEST_PAGE);
      var last := feed[MAX_MANIFEST_PAGE];
      assert rows[last.path].pos > feed[MAX_MANIFEST_PAGE - 1].pos;
    }
  }

  /** The rows a puller has still to read. */
  ghost function Above(rows: Rows, cursor: int): set<string>
  {
    set p | p in rows && rows[p].pos > cursor
  }

  /** Every non-empty page of an unchanging feed brings the puller closer to its end. */
  lemma PageMakesProgress(rows: Rows, since: int, page: Page)
    requires IsPage(rows, since, page) && page.entries != []
    ensures page.head > since
    ensures |Above(rows, page.head)| < |Above(rows, since)|
  {
    var first := page.entries[0];
    assert first.pos <= page.head;
    assert first.path in Above(rows, since) && first.path !in Above(rows, page.head);
    assert Above(rows, page.head) <= Above(rows, since) - {first.path};
    SubsetSize(Above(rows, page.head), Above(rows, since) - {first.path});
  }

  /** The server's handler. */
  method ServeManifest(store: Store, since: int) returns (page: Page)
    requires WellFormed(store.State())
    ensures page == GetManifest(store.rows, since)
  {
    var entries := store.ManifestSince(since, MAX_MANIFEST_PAGE + 1);
    page := Page([], since, false);
    if |entries| > MAX_MANIFEST_PAGE {
      entries := entries[..MAX_MANIFEST_PAGE];
      page := page.(more := true);
    }
    page := page.(entries := entries);
    if |entries| > 0 {
      page := page.(head := entries[|entries| - 1].pos);
    }
  }
}
