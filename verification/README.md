# Verification of a replicated configuration file system

Nodes keep one shared tree of configuration files. Each node stores one row per
path (content hash, metadata, version, tombstone flag), the blobs the rows refer
to, a changes feed numbered by a local counter, and a bookmark into the feed of
every peer. Versions come from a hybrid logical clock; the later version of a path
wins. Nodes pull from each other: compare digests, then walk the peer's feed page
by page, resolve each entry against the local row, fetch missing content, commit.
A mirror keeps a directory on disk in step with the tree, both ways.

`dafny verify dfyconfig.toml` checks everything.

## How the model is laid out

State that the program changes in place is a class whose methods are proved against
state functions: `Hlc.Clock`, `Store.Store`, `Service.Service`, `Notify.Subscribers`,
`Mirror.Mirror`, `Watch.Watcher`. The theorems are about those functions.

| files | content |
|---|---|
| `Order`, `Hlc`, `Path`, `Entry`, `Resolution` | byte order of strings, the clock, paths and conflict names, rows, the conflict decision |
| `Store`, `Transport`, `Digest` | rows, feed, blobs, bookmarks, collection; the page cut; the whole-tree digest |
| `Node`, `AntiEntropy`, `Service` | local writes; applying a page; the pull loop; the service that does both in place |
| `Admission`, `NodeFacts`, `PageEffects`, `Integrity`, `EditsKept`, `BatchRefinement`, `CopyCollisions`, `Paging`, `Deferrals` | what one page, one pull and one node's run keep |
| `Cluster`, `ClusterInvariant` | any number of nodes; each request and reply a step of its own; the invariant of every run |
| `Convergence`, `Bookmarks`, `LostEdits`, `ConflictCopies`, `Deletion`, `Refusals` | the theorems over whole runs of a cluster |
| `PullSteps`, `CatchUp`, `RefusedRows`, `TwoNode`, `Quiescence` | what a whole pull makes up for and what it misses for good; convergence of two nodes and of any number |
| `PullRefinement` | the pull loop of `Service` as a run of the cluster |
| `Notify` | change signals with depth-one channels |
| `Disk`, `Mirror`, `Watch` | the directory, rendering, promotion, the watcher |
| `RenderFacts`, `RenderPost`, `Promotion`, `Echo`, `DeletionRace`, `LostDeletions` | the mirror's theorems |

In `Cluster`, a pull over a link goes through Greet (the peer reports digest and
head), Compare, Ask (the peer serves a page), Receive, Record; Abort is a crash or
failed request; Write and Sweep are local writes and collection. A gossip hint is a
Greet at some moment. `PullRefinement.PullIsARun` ties the loop of `Service.SyncPeer` to
these steps, so what holds on every run holds of the loop. A ghost history records
every write ever made, what each author held when it wrote, what each node has heard
of, and what it refused.

## Hypotheses

- A node's clock starts at zero and is not seeded from its store
  (`internal/syncer/syncer.go:107`), so cluster runs start with fresh nodes and cover
  one process life.
- The clock's counter is a uint32 that wraps (`internal/core/hlc.go:123`). The clock
  functions model the wrap; steps of a cluster run require room in the counter
  (`Hlc.Room`, `NodeFacts.RoomForPage`), which can be checked before the step.
- Node names are non-empty and hold no dot, slash or NUL; hashes hold no NUL; SHA-256
  over tree texts is injective (`Cluster.GoodWorld`). The hash of file content is a
  function value; it is assumed injective only in `Node.PutFileReadsBack` and `Promotion`,
  and to yield 64 hex digits only in `Refusals`.
- Naming hypothesis (`LostEdits.OneContent`, `LostEdits.HandsOff`): one path, origin
  and wall time name one content, and nobody writes to conflict-named paths by hand.
- Convergence of two nodes and of any number starts from states in which nobody has missed
  a row (`CatchUp.CaughtUp`); this can be read off rows and bookmarks, and
  `CatchUp.CaughtUpUnlessRefused` says when runs keep it.
- No undetected rebuild of a peer: a peer's feed counter never restarts within a run.
- One pull of a peer at a time (`internal/syncer/antientropy.go:84-101`): at most one
  pull per link in a cluster, and `Deferrals.OnlyPull`.
- Mirror: mode bits and path shapes as `RenderFacts.SaneTree` says; for the echo loop
  also `Echo.ClearWay` and `Echo.Adopted`. All three can be read off tree and disk.
  While the user changes nothing, events speak of paths that are on disk or not live
  (`Echo.Speaks`).
- Removal and its event, and render's check and write of one path, are single steps
  in `DeletionRace`.

## Where code and documentation differ

- The repository's own README (line 89) promises that two edits in sequence make no
  conflict copy. They do, when the reader has not pulled in between:
  `Node.TwoEditsInSequence` gives the exact condition, `Node.EditedTwiceConflicts` an
  instance.
- `PutDir` records no PrevHash, so replacing a live file by a directory leaves a
  conflict copy on every node that held the file: `Node.LocalWriteFastForwards` (exactly
  when), `Node.DirOverFileConflicts` (an instance).
- `internal/syncer/antientropy.go:133-136` says the bookmark stays behind a deferral.
  That holds within a page; a later page of the same pull can carry it past:
  `Deferrals.DeferralOverPull` (exactly when), `Deferrals.PullMayPassDeferral`.
- The drift check subtracts in 64 bits (`internal/core/hlc.go:139`); a timestamp far
  enough in the past wraps around and is refused as too far ahead:
  `Hlc.DriftIsRefused` (exactly when), `Hlc.AncientIsRefused` (an instance).
- A row that the bookmark has passed without our being at or past it (refused for drift,
  `internal/syncer/antientropy.go:211-215`, deferred before the last page of a pull, or
  collected here) is not asked for again: `CatchUp.PullCatchesUpExactly` says which rows a pull
  makes up for. Once one is missed, the two trees stay apart however often the two nodes
  pull from each other: `CatchUp.MissedForGood`, with a refused row as an instance in
  `RefusedRows.RefusedRowKeepsTreesApart`.
- `render` is to leave paths in flight alone. Rendering a path below one makes the parent
  directories again (`internal/mirror/mirror.go:325`), and the removal of such a directory
  is then lost: `DeletionRace.OnlyChildrenBringBack` (exactly when),
  `LostDeletions.RenderUndoesRemoval` (a whole run).
- The end of a batch gives up the claims on its paths (`internal/mirror/watch.go:202-206`),
  also on one removed after its event was handled: `DeletionRace.RemovalKeepsItsClaim`
  (exactly when the claim holds until the removal is handled). That removal can be lost
  too: `LostDeletions.EarlyReleaseUndoesRemoval` (a whole run).
- A conflict name leaves out the counter of the version (`internal/core/path.go:88-90`), so
  two edits of one wall time share a name, and the copy of the second replaces that of the
  first: `CopyCollisions.LaterCopyReplacesEarlier`.
- A conflict copy is to replicate to every node like any other file
  (`internal/syncer/antientropy.go:316-320`). Its name is longer than the original's; past
  255 bytes, or 4096 for the path, every other node refuses it:
  `Refusals.CopyNameIsAccepted` (exactly when), `Refusals.WhatPeersRefuse`.
- Replicated modes may carry setuid, setgid and sticky bits, but `os.Root` refuses
  them in MkdirAll and OpenFile, and `promote` reads only the permission bits. Such
  entries are not created, and where they exist they echo: `RenderFacts.CanPlace`,
  `Echo.EchoIsSilent`. A name longer than 245 bytes leaves no room for the scratch
  prefix and is never written either: `RenderFacts.CanWrite`.

## Model

| member | source | states |
|---|---|---|
| Hlc.AfterIsTotal | internal/core/hlc.go:38-86 | of two versions exactly one is after the other, unless they are equal |
| Hlc.LastWriterWins | internal/core/hlc.go:38-79 | the later version has the later wall, then the higher counter, then the origin that is later in byte order |
| Hlc.AfterIsTransitive | internal/core/hlc.go:76-79 | After is transitive, so it is a strict total order on versions |
| Hlc.TickAdvances | internal/core/hlc.go:113-128 | a local reading is strictly later than all before it exactly when physical time moved on or the counter does not wrap |
| Hlc.MergeDominates | internal/core/hlc.go:134-162 | observing puts the clock strictly after both inputs exactly when no counter in play wraps |
| Hlc.DriftIsRefused | internal/core/hlc.go:134-145 | a remote reading is refused exactly when it leads by more than the limit, or when the 64-bit subtraction wraps |
| Hlc.AncientIsRefused | internal/core/hlc.go:138-141 | a reading from the far end of the past is refused as too far ahead |
| Hlc.DriftBound | internal/core/hlc.go:113-162 | over any sequence of local and remote readings, accepted or refused, the clock leads the largest physical reading by at most the drift limit |
| Hlc.TickFollowsTime | internal/core/hlc.go:113-128 | a local reading is physical time with counter zero where physical time moved on, and otherwise the old wall with the next counter |
| Hlc.MergeFollowsTime | internal/core/hlc.go:147-160 | a merged reading has the largest of the three walls; its counter restarts where physical time is ahead, and else follows the leading reading |
| Hlc.ClockFollowsTime | internal/core/hlc.go:113-162 | after any run the wall is exactly the largest among the start, every physical reading of a tick or accepted observation, and the observed walls |
| Hlc.Clock.Now | internal/core/hlc.go:113-128 | the clock steps to physical time where that is ahead, and the result is strictly later than the old value, room given |
| Hlc.Clock.Observe | internal/core/hlc.go:134-162 | the clock steps to Merge or, when the reading is refused, stays; an accepted reading is dominated |
| Path.SanitizeExact | internal/core/path.go:35-68 | accepted paths are exactly the NUL-free ones of at most 4096 bytes with non-empty elements of at most 255 bytes, none of them dot or dot-dot |
| Path.SanitizeModeExact | internal/core/path.go:70-79 | exactly the permission, setuid, setgid and sticky bits are kept |
| Path.ConflictNameInjective | internal/core/path.go:88-90 | conflict names tell path, origin and wall time apart when origins hold no dot |
| Path.ConflictNameIsRecognised | internal/core/path.go:95-97 | every conflict name is recognised as one |
| Resolution.ResolveConverges | internal/syncer/resolve.go:61-90 | when two nodes exchange different writes to a path, exactly one moves, and to the later write |
| Resolution.AcceptIsSafe | internal/syncer/resolve.go:61-90 | Accept exactly when the remote is later and no live content is replaced that its author did not replace or carry |
| Store.Store.Apply | internal/store/store.go:264-297 | stamps entries with consecutive feed positions above the head and upserts them in order; returns the new head |
| Store.UpsertAt | internal/store/store.go:281-290 | each path holds the last batch entry for it with its own position, or the row it had |
| Store.ApplyKeepsFeed | internal/store/store.go:264-297 | positions stay unique and at most the head; rows at or below the old head are untouched |
| Store.Store.ManifestSince | internal/store/store.go:216-218 | the loop's result is the feed function of rows, position and limit |
| Store.ManifestIsFeed | internal/store/store.go:216-218 | a manifest holds rows of the store in increasing order above the position, skips none, and stops early only at the limit |
| Store.Store.PutBlob | internal/store/store.go:311-321 | content is filed under its own hash, which is returned; content already present stays |
| Store.Store.SetPeerSeq | internal/store/store.go:363-373 | the bookmark of the one peer is replaced |
| Store.Store.GCTombstones | internal/store/store.go:403-411 | a row goes exactly when it is deleted and its known deletion time is before the horizon; returns how many |
| Store.Store.GCBlobs | internal/store/store.go:416-424 | drops exactly the blobs no row references; returns how many |
| Transport.ManifestIsPage | internal/transport/server.go:139-158 | a page skips no row up to its head, holds at most 2000 and that many when more remain, and More is set exactly when rows remain beyond |
| Transport.PageMakesProgress | internal/syncer/antientropy.go:137-163 | every non-empty page leaves fewer rows above the cursor |
| Transport.ServeManifest | internal/transport/server.go:139-158 | the handler computes the page of the rows and position |
| Digest.ComputeDigest | internal/store/store.go:241-255 | hashes the rows in path order, and returns row count and highest position |
| Digest.EncodeIsReadable | internal/store/store.go:248-252 | the row encoding is uniquely decodable: equal texts come from equal row lists on the hashed fields |
| Digest.DigestIsFaithful | internal/store/store.go:241-255 | equal digests exactly when the trees agree on the hashed fields; positions and order of arrival do not matter |
| Node.WriteLands | internal/syncer/syncer.go:159-333 | a local write commits at most one entry, to its own path, stamped by the clock; with no entry nothing changes |
| Node.PutFileReadsBack | internal/syncer/syncer.go:151-198 | an accepted PutFile reads back as offered, records size and replaced hash, touches no other path, and writes nothing exactly when content and metadata are those of a live row; errors change nothing |
| Node.PutDirReadsBack | internal/syncer/syncer.go:205-233 | an accepted PutDir leaves a live directory as offered, touches no other path, and repeated is a no-op |
| Node.SetAttrKeepsContent | internal/syncer/syncer.go:240-267 | SetAttr succeeds exactly on live paths and changes attributes alone; repeated it is a no-op |
| Node.DeleteLeavesTombstone | internal/syncer/syncer.go:276-303 | a live row becomes a tombstone naming its content and keeping mode and owner, a missing or deleted one stays; repeated it is a no-op |
| Node.LocalWriteFastForwards | internal/syncer/resolve.go:61-90 | a node holding the replaced row takes the write cleanly, unless it is a PutDir over content |
| Node.DirOverFileConflicts | internal/syncer/syncer.go:223-231 | a file replaced by a directory, with no other edit, is a conflict at a node that holds the file |
| Node.TwoEditsInSequence | internal/syncer/resolve.go:79-88 | two edits between pulls are taken cleanly exactly when one of them wrote the reader's content, or it holds none |
| Node.EditedTwiceConflicts | internal/syncer/resolve.go:79-90 | a file edited twice before the next pull ends as a conflict |
| Service.Service.PutFile | internal/syncer/syncer.go:159-198 | clock, store and error are those of the state function |
| Service.Service.PutDir | internal/syncer/syncer.go:205-233 | clock, store and error are those of the state function |
| Service.Service.SetAttr | internal/syncer/syncer.go:240-267 | clock, store and error are those of the state function |
| Service.Service.Delete | internal/syncer/syncer.go:276-303 | clock, store and error are those of the state function |
| Service.Service.EnsureContent | internal/syncer/antientropy.go:295-314 | succeeds exactly when the content is held or a reply of that hash and an allowed size arrives, and then it is held |
| Service.Service.ApplyPage | internal/syncer/antientropy.go:179-263 | the loop over a page, entry by entry, equals the fold of decisions and commits its batch once; returns the safe position |
| Service.Service.CollectGarbage | internal/syncer/antientropy.go:332-353 | tombstones first, then blobs |
| Service.Service.CompareDigests | internal/syncer/antientropy.go:107-131 | equal digests settle the pull; a peer behind our bookmark restarts it |
| Service.Service.PullPage | internal/syncer/antientropy.go:139-161 | one turn of the pull: other work, page, apply, bookmark made durable |
| Service.Service.SyncPeer | internal/syncer/antientropy.go:103-164 | the pull loop equals the rounds of the model, for every interleaving with other work between pages |
| PageEffects.PageRises | internal/syncer/antientropy.go:179-263 | a page strictly raises the version of every path it changes, even with two rows for one path in a batch |
| PageEffects.LocalWriteRises | internal/syncer/syncer.go:159-304 | a local write strictly raises the version of its path; the clock stays past every stored version |
| Admission.FateIsExact | internal/syncer/antientropy.go:189-293 | an entry, live or tombstone, is rejected exactly for a malformed field or its stamp, skipped exactly when the tree is as late, deferred exactly when its content is missing and does not arrive, and stored otherwise |
| Integrity.PageKeepsContent | internal/syncer/antientropy.go:179-314 | after a page, conflict copies and deferrals included, every live file row has its blob |
| Integrity.CollectIsExact | internal/syncer/antientropy.go:332-353 | a row goes exactly when it is a tombstone deleted before the horizon, a blob exactly when no row left has its hash; content integrity is kept |
| Integrity.LivingIsKept | internal/store/store.go:403-424 | through any number of collections with any horizons every live row and its content stays, and exactly the outlived tombstones go |
| Integrity.EveryRunKeepsContent | internal/syncer/antientropy.go:179-353 | content integrity in every state a node can reach |
| EditsKept.PageKeepsEdits | internal/syncer/antientropy.go:218-250 | content a page replaces survives as a copy, in the new row, or is what the new row's author replaced |
| EditsKept.CopiesAreExact | internal/syncer/antientropy.go:219-328 | a page makes one conflict copy per conflicting entry that is not refused, and no others: the losing row's kind, content, size, mode, owner, stamped by this node after the entry |
| EditsKept.ConflictLeavesCopy | internal/syncer/antientropy.go:316-328 | after the commit the losing row stands under its conflict name field by field, unless the page has an entry of that name |
| BatchRefinement.BatchRefinesSerial | internal/syncer/antientropy.go:179-263 | a page of distinct paths, none of them the name of a copy made for an earlier entry, leaves the rows, positions, blobs, clock and safe position of committing its entries one at a time |
| CopyCollisions.CopyIsOvertaken | internal/syncer/antientropy.go:219-250 | a page with a conflicting entry and, after it, another node's copy of the same row: at once their copy stays, one at a time our later one |
| CopyCollisions.LaterCopyReplacesEarlier | internal/syncer/antientropy.go:316-328 | two edits at one wall time: the copy of the second takes the place of the copy of the first, whose content is then nowhere in the node's tree |
| Paging.WalkMissesNothing | internal/syncer/antientropy.go:137-163 | over a feed that keeps changing, every row within the walked interval was delivered as it stands |
| Paging.WalkDeliversFeed | internal/syncer/antientropy.go:137-163 | on a still feed the walk ends and delivers every row once, in order |
| Bookmarks.SafeIsExact | internal/syncer/antientropy.go:179-263 | the safe position covers exactly the entries before the first deferral |
| Deferrals.DeferralOverPull | internal/syncer/antientropy.go:133-163 | a deferred entry lies above the stored bookmark after its pull exactly when every later page began with a deferral |
| Deferrals.PullMayPassDeferral | internal/syncer/antientropy.go:133-163 | a pull of two pages that succeeds and passes over a file it could not fetch |
| ClusterInvariant.RunKeepsInv | internal/syncer/antientropy.go:103-263 | in every reachable state stores are well formed, clocks past all stored versions, versions unique, held pages honest |
| Convergence.StrongConvergence | internal/syncer/resolve.go:61-90 | a node's row is the latest of the writes that reached it; nodes that know the same writes hold the same row |
| Refusals.WhatPeersRefuse | internal/syncer/antientropy.go:267-293 | in every reachable state an entry on its way is refused exactly for its size, its stamp, or too long a name, which only conflict copies have |
| Refusals.CopyNameIsAccepted | internal/core/path.go:88-90 | a conflict name is a path other nodes accept exactly when base name and path stay within 255 and 4096 bytes |
| CatchUp.PullCatchesUpExactly | internal/syncer/antientropy.go:103-164 | after a whole clean pull the puller is at or past the peer's row for a path exactly when the row lay above where the pull starts reading or was passed before (at conflict names: if) |
| CatchUp.MissedForGood | internal/syncer/antientropy.go:115-163 | from any reachable state: a peer's row below where pulls start, not passed by ours, stays missed through any pulls between the two nodes in any order, and their trees stay different |
| CatchUp.CaughtUpUnlessRefused | internal/syncer/antientropy.go:115-216 | without collection and passed deferrals, a node has missed nothing exactly when it is at or past every row it refused and its peer still holds below the bookmark |
| RefusedRows.RefusedRowKeepsTreesApart | internal/syncer/antientropy.go:207-216 | a run that reaches such a state: a row refused for drift and passed; whole clean pulls can be had both ways, and none helps |
| TwoNode.TwoNodeConvergence | internal/syncer/antientropy.go:103-263 | from any reachable state in which neither node has missed a row of the other, three clean pulls (B from A, A from B, B from A) leave identical trees, the third without a new write |
| Quiescence.TwoSweepsConverge | internal/syncer/antientropy.go:103-263 | any number of nodes, none of which has missed a row of another: two rounds of clean pulls over all ordered pairs, in any order, leave all trees identical, the second without a new write |
| Quiescence.QuietExactlyWhenEqual | internal/syncer/antientropy.go:103-263 | from such a state, clean pulls over all ordered pairs change no tree exactly when all trees are identical |
| PullRefinement.PullIsARun | internal/syncer/antientropy.go:103-164 | the pull loop, with whatever others do while a page is fetched, is a run of the cluster with the same store, clock and pull state |
| Bookmarks.BookmarkSoundness | internal/syncer/antientropy.go:115-164 | every peer row at or below our bookmark is matched or passed by our row or was refused, in every interleaving |
| LostEdits.NoSilentLoss | internal/syncer/antientropy.go:218-250 | content replaced by a page is kept as a copy, carried by the new row, or was held by its author at that path when it wrote |
| ConflictCopies.ConflictCopiesAgree | internal/syncer/antientropy.go:316-328 | on every run all that is visible under one conflict name is live and holds one content, pages never conflict there, and no write is named after a conflict-named one |
| Deletion.DeletionIsNeverUndone | internal/store/store.go:390-411 | once a tombstone or later is everywhere, no older write is stored again, collection or not |
| Notify.Subscribers.Subscribe | internal/syncer/syncer.go:120-137 | a fresh channel, empty; the others untouched |
| Notify.Subscribers.SignalAll | internal/syncer/syncer.go:140-149 | every channel ends full, and a full one stays |
| Notify.Subscribers.Receive | internal/syncer/syncer.go:120-149 | takes the one waiting signal, if any |
| Notify.NoLostWakeUp | internal/syncer/syncer.go:120-149 | a subscriber with an empty channel and a finished read has seen the tree of the last completed commit or a later one |
| Mirror.Mirror.RenderTree | internal/mirror/mirror.go:257-285 | the loop over live entries, then removal, equals the render function |
| Mirror.Mirror.RemoveTombstoned | internal/mirror/mirror.go:385-424 | the removal loop, deepest first, equals its function |
| Mirror.Mirror.RenderRegular | internal/mirror/mirror.go:296-314 | rewrites a file only when its content differs |
| Mirror.Mirror.RenderDirectory | internal/mirror/mirror.go:288-293 | makes the directory and sets its metadata |
| Mirror.Mirror.SetMeta | internal/mirror/mirror.go:359-382 | mode always, owner while this process can set it; a failure ends trying |
| Mirror.Mirror.Offer | internal/mirror/mirror.go:483-522 | the tree steps to the promotion of the path |
| Mirror.Mirror.Scan | internal/mirror/mirror.go:428-433 | promotes path after path in the walk's order |
| Mirror.Mirror.ApplyEvents | internal/mirror/watch.go:199-242 | promotes or tombstones each path of a batch, then gives up exactly the batch's claims |
| Disk.ScratchIsScratch | internal/mirror/mirror.go:322-331 | the scratch file of a path lies beside it under the reserved prefix |
| Watch.Watcher.Record | internal/mirror/watch.go:128-133 | a later event supersedes an earlier one, and the path is claimed |
| Watch.Watcher.EnqueueTree | internal/mirror/watch.go:154-169 | everything a walk of the new directory comes to, scratch-named files and whole scratch-named directories left out, is pending and claimed |
| Watch.EntersExactly | internal/mirror/watch.go:154-169 | a walk comes exactly to what no scratch-named directory or name hides |
| Watch.Watcher.Flush | internal/mirror/watch.go:84-91 | hands over each pending path exactly once and starts afresh |
| RenderFacts.FileRendered | internal/mirror/mirror.go:296-354 | rendering a file shows it exactly when nothing is in the way, and touches only it, missing parents and its scratch file |
| RenderFacts.DirRendered | internal/mirror/mirror.go:288-293 | the same for a directory |
| RenderFacts.MetaIsExact | internal/mirror/mirror.go:359-382 | the mode is set always, the owner exactly while changing owners is allowed and has not been refused |
| RenderFacts.ParentsBelongToUs | internal/mirror/mirror.go:288-328 | directories made on the way are this process's, with the directory's mode or 0755 less the umask |
| RenderPost.RemovalIsExact | internal/mirror/mirror.go:385-424 | a path is removed exactly when it and everything below it on disk is a regular, unclaimed path with a tombstone: descending order empties directories first |
| RenderPost.RenderPostState | internal/mirror/mirror.go:257-424 | after a render live paths show exactly when nothing was in the way, paths without a row are untouched, tombstoned paths are gone exactly when all below on disk is tombstoned and unclaimed too |
| Promotion.PromotionIsExact | internal/mirror/mirror.go:483-560 | what stands on disk gets into the tree, with its content, permissions and owner, exactly when the path is new or live and older, accepted and not oversized; nothing else changes |
| Promotion.ScanIsExact | internal/mirror/mirror.go:428-433 | a scan in any order does this at every path it visits, and changes no other path |
| Promotion.EventsAreAnswered | internal/mirror/watch.go:199-242 | a batch leaves a tombstone where a path is gone and settles the others with the disk, and changes no other path |
| Echo.FirstRenderSettles | internal/mirror/mirror.go:257-382 | one render with nothing in the way makes disk and tree agree, owners included, but for absent files that cannot be written |
| Echo.EchoLoopIsFixed | internal/mirror/mirror.go:257-314 | after such a render no sequence of scans, events and renders writes a version or a file, with or without chown rights, files that cannot be written among the tree |
| Echo.EchoIsSilent | internal/mirror/mirror.go:483-519 | offering the mirror's own file back is a no-op exactly when its mode is within 0777 and its owner agrees |
| DeletionRace.RemovalKeepsItsClaim | internal/mirror/watch.go:111-206 | after a removal by hand the path stays claimed on every run up to the handling of an event for it, exactly when the batch being applied is not already past the path; if it is, a run ends with the path unclaimed and the removal still pending |
| DeletionRace.OnlyChildrenBringBack | internal/mirror/mirror.go:257-331 | a render brings a claimed, missing path back exactly when it renders an unclaimed path below it and gets as far as making directories |
| DeletionRace.HandlingDeletes | internal/mirror/watch.go:199-242 | an event for a missing path leaves a tombstone where there was a row, exactly when it says removed or a fresh look tells so; no other path is touched |
| DeletionRace.DeletionSurvivesRendering | internal/mirror/watch.go:78-242 | from removal to handling, in every interleaving and whatever further events arrive for the path, it stays off the disk and is then deleted from the tree |
| LostDeletions.RenderUndoesRemoval | internal/mirror/mirror.go:296-331 | a run that undoes a removal: an unclaimed child is rendered, all events are handled, and the directory is back and live |
| LostDeletions.EarlyReleaseUndoesRemoval | internal/mirror/watch.go:199-206 | a run that undoes a removal: the batch ends after handling an earlier event, and with it the claim |

## Left out

- internal/cluster, gossip and hints: a hint only starts a pull, and a pull may start at any time in the model. The table of pulls in flight (`triggerSync`) appears as at most one pull per link.
- HTTP, signing, sealing, key derivation and JSON: a peer's reply is a value; a failed request is None. What stays is the page cut and the check that a blob matches its hash.
- SQLite, transactions and their failures: each query and each Apply is one atomic step, and feed positions do not overflow int64.
- Pages in a cluster run come from peers that run this program; `Service`, `Integrity`, `Deferrals` and `BatchRefinement` take any page.
- Restarts with a non-empty store, undetected rebuilds of a peer, and counter wrap within a cluster run are hypotheses, listed above.
- Bookmarks.BookmarkSoundness: excludes collection, and a page that defers must be the last of its pull, because the code does not keep the property otherwise (Deferrals.DeferralOverPull).
- Convergence.StrongConvergence: excludes collection, which forgets tombstones on purpose.
- CatchUp.PullCatchesUpExactly: is about pulls that run with nothing in between and defer and refuse nothing; at a conflict name the puller may also get past the peer's row by a copy of its own.
- CatchUp.MissedForGood: is about pulls between the two nodes only; a third node may bring either of them the row.
- TwoNode.TwoNodeConvergence: assumes that the three pulls run with nothing in between and defer and refuse nothing, that neither node has missed a row of the other when they begin (CatchUp.MissedForGood shows why), and the naming hypothesis.
- Quiescence.TwoSweepsConverge: assumes the same of all its pulls and all pairs of nodes, and the naming hypothesis.
- Quiescence.QuietExactlyWhenEqual: assumes the same of all its pulls and all pairs of nodes.
- PullRefinement.PullIsARun: lets others act while a page is fetched; between applying a page and recording its bookmark the loop takes no other step, while the cluster also allows steps there.
- LostEdits.NoSilentLoss: rests on the naming hypothesis; without it a later copy of one name may replace an earlier one (CopyCollisions.LaterCopyReplacesEarlier).
- ConflictCopies.ConflictCopiesAgree: rests on the naming hypothesis, in both halves.
- BatchRefinement.BatchRefinesSerial: excludes two entries for one path, which a peer running this program never serves, and a copy made for one entry whose name is the path of a later one, where batch and serial may differ (CopyCollisions.CopyIsOvertaken).
- RenderPost.RenderPostState: assumes no live file above a live path, modes as local writes store them, and no path named like a scratch file; which tombstoned paths go is stated for those with no live path below (RenderPost.RemovalIsExact has no such limit).
- Echo.EchoLoopIsFixed: assumes that nothing of another kind stands in the way of a live path, that a file which cannot be written is not on disk in an older version, and a live row for every directory above a live path; the run may hold any claims and modification times.
- Promotion.PromotionIsExact: assumes that hashing content is injective and never empty, and a node in which every live file's content is held.
- Promotion.ScanIsExact: takes the order of the walk, each path once, and reads of an unchanging disk.
- Promotion.EventsAreAnswered: is stated for batches that name each path once, as the watcher's do, and an unchanging disk.
- EditsKept.ConflictLeavesCopy: excludes a page with an entry under the copy's name (CopyCollisions.CopyIsOvertaken).
- DeletionRace.DeletionSurvivesRendering: asks that the batch being applied at the removal is not already past the path, that the user does not put it back, and that no render brings it back; LostDeletions shows runs that lose the removal otherwise.
- internal/fusefs, the CLI, status documents, logging, tickers, timeouts and the address and last-seen columns of the peers table.
- Symlinks and device nodes are leaves that are skipped; what reading or changing one does is not modelled. Neither are fsync, disk errors, chown clearing setuid bits, and inotify queue limits.
- Strings are sequences of bytes held in chars; there is no Unicode handling.
