/** The cache directory as a whole (internal/cache/cache.go): content tree and metadata tree, the
    atomic operations on one key, and the two eviction loops and the startup scan over all of them. */
module FileCache {
  import opened Metadata
  import opened Text

  /** A path below the cache directory: a storage (or ".downloads") and a key. */
  datatype Loc = Loc(storage: string, key: string)

  const DOWNLOADS := ".downloads"
  const NS_PER_SECOND := 1_000_000_000
  const EVICT_MIN_AGE := 30 * 60 * NS_PER_SECOND

  datatype CachedFile = CachedFile(path: Loc, size: nat, modTime: int)

  function SlotOf(files: map<Loc, File>, metas: map<Loc, FileMeta>, l: Loc): Slot {
    Slot(if l in files then Some(files[l]) else None, if l in metas then Some(metas[l]) else None)
  }

  // ---- sizes ----

  function SizeAt(files: map<Loc, File>, l: Loc): nat { if l in files then |files[l].data| else 0 }

  function TotalSize(walk: seq<Loc>, files: map<Loc, File>): nat {
    if walk == [] then 0 else SizeAt(files, walk[0]) + TotalSize(walk[1..], files)
  }

  predicate Distinct<T(==)>(s: seq<T>) { forall i, j :: 0 <= i < j < |s| ==> s[i] != s[j] }

  /** The walk visits every file exactly once. */
  ghost predicate Enumerates(walk: seq<Loc>, files: map<Loc, File>) {
    Distinct(walk) && forall l :: l in walk <==> l in files
  }

  lemma {:induction false} TotalOfOthers(walk: seq<Loc>, files: map<Loc, File>, l: Loc)
    requires l !in walk
    ensures TotalSize(walk, files - {l}) == TotalSize(walk, files)
  {
    if walk != [] { TotalOfOthers(walk[1..], files, l); }
  }

  /** Removing one file takes exactly its size off the total. */
  lemma {:induction false} TotalWithout(walk: seq<Loc>, files: map<Loc, File>, l: Loc)
    requires Distinct(walk) && l in walk
    ensures TotalSize(walk, files - {l}) == TotalSize(walk, files) - SizeAt(files, l)
    ensures SizeAt(files, l) <= TotalSize(walk, files)
  {
    if walk[0] == l {
      assert l !in walk[1..];
      TotalOfOthers(walk[1..], files, l);
    } else {
      TotalWithout(walk[1..], files, l);
    }
  }

  lemma {:induction false} TotalAppend(walk: seq<Loc>, l: Loc, files: map<Loc, File>)
    ensures TotalSize(walk + [l], files) == TotalSize(walk, files) + SizeAt(files, l)
  {
    if walk != [] {
      assert (walk + [l])[1..] == walk[1..] + [l];
      TotalAppend(walk[1..], l, files);
    }
  }

  lemma MinusOne<V>(m: map<Loc, V>, a: set<Loc>, l: Loc)
    ensures m - a - {l} == m - (a + {l})
  {
  }

  // ---- ordering ----

  predicate OldestFirst(fs: seq<CachedFile>) {
    forall i, j :: 0 <= i < j < |fs| ==> fs[i].modTime <= fs[j].modTime
  }

  /** Sorting by modification time: the result holds the same entries, oldest first. */
  function Sorted(fs: seq<CachedFile>): (r: seq<CachedFile>)
    ensures OldestFirst(r) && multiset(r) == multiset(fs)
  {
    if fs == [] then []
    else
      assert fs == [fs[0]] + fs[1..];
      Insert(fs[0], Sorted(fs[1..]))
  }

  function Insert(f: CachedFile, fs: seq<CachedFile>): (r: seq<CachedFile>)
    requires OldestFirst(fs)
    ensures OldestFirst(r) && multiset(r) == multiset(fs) + multiset{f}
  {
    var k := Position(f, fs);
    InsertedInOrder(f, fs, k);
    assert fs == fs[..k] + fs[k..];
    fs[..k] + [f] + fs[k..]
  }

  lemma InsertedInOrder(f: CachedFile, fs: seq<CachedFile>, k: nat)
    requires OldestFirst(fs) && k <= |fs|
    requires forall i :: 0 <= i < |fs| ==> (i < k <==> fs[i].modTime < f.modTime)
    ensures OldestFirst(fs[..k] + [f] + fs[k..])
  {
    var r := fs[..k] + [f] + fs[k..];
    forall i, j | 0 <= i < j < |r| ensures r[i].modTime <= r[j].modTime {
      assert r[i] == if i < k then fs[i] else if i == k then f else fs[i - 1];
      assert r[j] == if j < k then fs[j] else if j == k then f else fs[j - 1];
    }
  }

  /** Where f belongs: after exactly the entries older than it. */
  function Position(f: CachedFile, fs: seq<CachedFile>): (k: nat)
    requires OldestFirst(fs)
    ensures k <= |fs|
    ensures forall i :: 0 <= i < |fs| ==> (i < k <==> fs[i].modTime < f.modTime)
  {
    if fs == [] || f.modTime <= fs[0].modTime then 0 else 1 + Position(f, fs[1..])
  }

  // ---- the greedy choice ----

  /** What the eviction loop removes, in order, from a total over the limit. */
  function Greedy(order: seq<CachedFile>, total: int, maxBytes: int, unlinkable: set<Loc>): seq<CachedFile> {
    if order == [] || total <= maxBytes then []
    else if order[0].path in unlinkable then
      [order[0]] + Greedy(order[1..], total - order[0].size, maxBytes, unlinkable)
    else Greedy(order[1..], total, maxBytes, unlinkable)
  }

  function Paths(fs: seq<CachedFile>): (r: seq<Loc>)
    ensures |r| == |fs| && forall i :: 0 <= i < |fs| ==> r[i] == fs[i].path
  {
    if fs == [] then [] else [fs[0].path] + Paths(fs[1..])
  }

  function SumOfSizes(fs: seq<CachedFile>): nat { if fs == [] then 0 else fs[0].size + SumOfSizes(fs[1..]) }

  lemma PathsAsSet(fs: seq<CachedFile>)
    ensures (set f | f in fs :: f.path) == set l | l in Paths(fs)
  {
    forall l ensures l in (set f | f in fs :: f.path) <==> l in Paths(fs) {
      if f :| f in fs && f.path == l {
        var k :| 0 <= k < |fs| && fs[k] == f;
        assert Paths(fs)[k] == l;
      }
    }
  }

  lemma {:induction false} SumAppend(fs: seq<CachedFile>, f: CachedFile)
    ensures SumOfSizes(fs + [f]) == SumOfSizes(fs) + f.size
  {
    if fs != [] {
      assert (fs + [f])[1..] == fs[1..] + [f];
      SumAppend(fs[1..], f);
    }
  }

  predicate DistinctPaths(fs: seq<CachedFile>) { forall i, j :: 0 <= i < j < |fs| ==> fs[i].path != fs[j].path }

  lemma GreedyStep(order: seq<CachedFile>, i: nat, total: int, maxBytes: int, unlinkable: set<Loc>)
    requires i < |order| && total > maxBytes
    ensures var now := Greedy(order[i..], total, maxBytes, unlinkable);
      if order[i].path in unlinkable then
        var next := Greedy(order[i + 1..], total - order[i].size, maxBytes, unlinkable);
        now == [order[i]] + next
      else now == Greedy(order[i + 1..], total, maxBytes, unlinkable)
  {
    assert order[i..][1..] == order[i + 1..];
  }

  /** Only unlinkable candidates go, none twice. */
  lemma {:induction false} GreedyChooses(order: seq<CachedFile>, total: int, maxBytes: int, unlinkable: set<Loc>)
    requires DistinctPaths(order)
    ensures var g := Greedy(order, total, maxBytes, unlinkable);
      DistinctPaths(g) && forall f :: f in g ==> f in order && f.path in unlinkable
  {
    if order != [] && total > maxBytes {
      var rest := if order[0].path in unlinkable then total - order[0].size else total;
      GreedyChooses(order[1..], rest, maxBytes, unlinkable);
      assert forall f :: f in order[1..] ==> f in order && f.path != order[0].path;
    }
  }

  /** Each removal starts over the limit. */
  lemma {:induction false} GreedyIsNeeded(order: seq<CachedFile>, total: int, maxBytes: int, unlinkable: set<Loc>,
      i: nat)
    requires i < |Greedy(order, total, maxBytes, unlinkable)|
    ensures total - SumOfSizes(Greedy(order, total, maxBytes, unlinkable)[..i]) > maxBytes
  {
    var g := Greedy(order, total, maxBytes, unlinkable);
    if order[0].path !in unlinkable {
      GreedyIsNeeded(order[1..], total, maxBytes, unlinkable, i);
    } else if i > 0 {
      GreedyIsNeeded(order[1..], total - order[0].size, maxBytes, unlinkable, i - 1);
      assert g[..i][1..] == g[1..][..i - 1];
    }
  }

  /** It stops within the limit or with nothing left to remove. */
  lemma {:induction false} GreedyIsEnough(order: seq<CachedFile>, total: int, maxBytes: int, unlinkable: set<Loc>,
      f: CachedFile)
    requires total - SumOfSizes(Greedy(order, total, maxBytes, unlinkable)) > maxBytes
    requires f in order && f.path in unlinkable
    ensures f in Greedy(order, total, maxBytes, unlinkable)
  {
    var rest := if order[0].path in unlinkable then total - order[0].size else total;
    if f != order[0] { GreedyIsEnough(order[1..], rest, maxBytes, unlinkable, f); }
  }

  /** Nothing removed is more recent than a survivor that could have been. */
  lemma {:induction false} GreedyTakesOldest(order: seq<CachedFile>, total: int, maxBytes: int, unlinkable: set<Loc>,
      e: CachedFile, f: CachedFile)
    requires OldestFirst(order)
    requires e in Greedy(order, total, maxBytes, unlinkable)
    requires f in order && f.path in unlinkable && f !in Greedy(order, total, maxBytes, unlinkable)
    ensures e.modTime <= f.modTime
  {
    var rest := if order[0].path in unlinkable then total - order[0].size else total;
    if e != order[0] || order[0].path !in unlinkable {
      GreedyTakesOldest(order[1..], rest, maxBytes, unlinkable, e, f);
    }
  }

  lemma {:induction false} BytesAreSizes(fs: seq<CachedFile>, files: map<Loc, File>)
    requires forall f :: f in fs ==> f.path in files && f.size == |files[f.path].data|
    ensures SumOfSizes(fs) == TotalSize(Paths(fs), files)
  {
    if fs != [] {
      BytesAreSizes(fs[1..], files);
      assert Paths(fs)[1..] == Paths(fs[1..]);
    }
  }

  // ---- who may be evicted ----

  /** What eviction by age takes: nothing that may hold bytes S3 does not have. */
  predicate AgeEvictable(files: map<Loc, File>, metas: map<Loc, FileMeta>, l: Loc, storage: string, cutoff: Time) {
    l in files && l.storage == storage && files[l].mtime < cutoff && !LocalAuthoritative(SlotOf(files, metas, l))
  }

  function AgeVictims(files: map<Loc, File>, metas: map<Loc, FileMeta>, storage: string, cutoff: Time,
      unlinkable: set<Loc>): set<Loc> {
    set l | l in files && l in unlinkable && AgeEvictable(files, metas, l, storage, cutoff)
  }

  /** What eviction by size may take: nothing that may hold bytes S3 does not have, unless it is a partial
      download, and nothing modified within the last half hour. */
  predicate Candidate(files: map<Loc, File>, metas: map<Loc, FileMeta>, l: Loc, now: Time) {
    && l in files && files[l].mtime + 1_800_000_000_000 <= now
    && (l.storage == ".downloads" || !LocalAuthoritative(SlotOf(files, metas, l)))
  }

  function Entry(files: map<Loc, File>, l: Loc): CachedFile
    requires l in files
  {
    CachedFile(l, |files[l].data|, files[l].mtime / NS_PER_SECOND)
  }

  /** Ages are compared in whole seconds. */
  lemma SecondIs(files: map<Loc, File>, l: Loc)
    requires l in files
    ensures Second(files, l) * 1_000_000_000 <= files[l].mtime < (Second(files, l) + 1) * 1_000_000_000
  {
  }

  function Second(files: map<Loc, File>, l: Loc): int {
    if l in files then Entry(files, l).modTime else 0
  }

  /** What a startup scan must find: content files not recorded as in sync. */
  predicate Unconfirmed(files: map<Loc, File>, metas: map<Loc, FileMeta>, l: Loc, storages: set<string>) {
    && l in files && l.storage in storages
    && !EndsWith(l.key, ".tmp") && !EndsWith(l.key, ".meta")
    && !Covered(SlotOf(files, metas, l))
  }

  lemma NextVictim(victims: set<Loc>, todo: set<Loc>, gone: set<Loc>, l: Loc)
    requires gone == victims - todo && l in todo
    ensures l !in gone && |gone + {l}| == |gone| + 1
    ensures victims - (todo - {l}) == if l in victims then gone + {l} else gone
  {
  }

  class FileCache {
    var files: map<Loc, File>
    var metas: map<Loc, FileMeta>
    const maxMB: int

    constructor (maxMB: int)
      ensures files == map[] && metas == map[] && this.maxMB == maxMB
    {
      files, metas := map[], map[];
      this.maxMB := maxMB;
    }

    function At(l: Loc): Slot
      reads this
    {
      SlotOf(files, metas, l)
    }

    /** Nothing but this key changed. */
    twostate predicate OnlyAt(l: Loc)
      reads this
    {
      forall k :: k != l ==> At(k) == old(At(k))
    }

    // ---- operations on one key ----

    method StoreMeta(l: Loc, meta: FileMeta, now: Time)
      modifies this`metas
      ensures At(l) == WriteMeta(old(At(l)), meta, now) && OnlyAt(l)
    {
      var inode := if l in files then files[l].inode else 0;
      metas := metas[l := meta.(cachedAt := now, inode := inode)];
    }

    method MarkPending(l: Loc, now: Time) returns (marked: bool)
      modifies this`metas
      ensures (At(l), marked) == Metadata.MarkPending(old(At(l)), now) && OnlyAt(l)
    {
      if l !in files { return false; }
      var info := Stat(files[l]);
      if Covers(At(l).meta, info) { return false; }
      StoreMeta(l, FileMeta("", info.mtime, info.size, 0, true, 0), now);
      return true;
    }

    method MarkSynced(l: Loc, uploaded: FileInfo, started: Option<Time>, meta: FileMeta, now: Time)
        returns (accepted: bool)
      modifies this`metas
      ensures (At(l), accepted) == Metadata.MarkSynced(old(At(l)), uploaded, started, meta, now) && OnlyAt(l)
    {
      if l !in files || Stat(files[l]) != uploaded { return false; }
      if l in metas && started.Some? && metas[l].pending && metas[l].cachedAt > started.value { return false; }
      StoreMeta(l, meta, now);
      return true;
    }

    method Invalidate(l: Loc, unlinked: bool)
      modifies this
      ensures At(l) == Metadata.Invalidate(old(At(l)), unlinked) && OnlyAt(l)
    {
      if l in files && !unlinked { return; }
      files, metas := files - {l}, metas - {l};
    }

    /** The error reported is a failure other than "does not exist". */
    method Remove(l: Loc, unlinked: bool, now: Time) returns (failed: bool)
      modifies this
      ensures At(l) == Metadata.Remove(old(At(l)), unlinked, now) && OnlyAt(l)
      ensures failed <==> At(l).file.Some?
    {
      if l in files && !unlinked {
        if l in metas && metas[l].pending {
          StoreMeta(l, metas[l].(pending := false), now);
        }
        return true;
      }
      files, metas := files - {l}, metas - {l};
      return false;
    }

    /** Both evictions unlink a file together with its metadata. */
    method Drop(l: Loc, ghost walk: seq<Loc>, ghost files0: map<Loc, File>, ghost metas0: map<Loc, FileMeta>,
        ghost gone: set<Loc>)
      requires l in files && Distinct(walk) && l in walk
      requires files == files0 - gone && metas == metas0 - gone
      modifies this
      ensures files == files0 - (gone + {l}) && metas == metas0 - (gone + {l})
      ensures TotalSize(walk, files) == TotalSize(walk, old(files)) - |old(files)[l].data|
    {
      TotalWithout(walk, files, l);
      MinusOne(files0, gone, l);
      MinusOne(metas0, gone, l);
      files, metas := files - {l}, metas - {l};
    }

    // ---- eviction by age ----

    /** One file of the walk: removed if it is older than the cutoff, recorded, and not pending. */
    method AgeOut(l: Loc, storage: string, cutoff: Time, unlinkable: set<Loc>,
        ghost files0: map<Loc, File>, ghost metas0: map<Loc, FileMeta>, ghost gone: set<Loc>) returns (removed: bool)
      requires files == files0 - gone && metas == metas0 - gone && l in files
      modifies this
      ensures removed <==> l in unlinkable && AgeEvictable(files0, metas0, l, storage, cutoff)
      ensures files == files0 - (if removed then gone + {l} else gone)
      ensures metas == metas0 - (if removed then gone + {l} else gone)
    {
      assert SlotOf(files, metas, l) == SlotOf(files0, metas0, l);
      removed := l.storage == storage && files[l].mtime < cutoff && l in metas && !metas[l].pending && l in unlinkable;
      if removed { Drop(l, [l], files0, metas0, gone); }
    }

    /** Removes exactly the synced files of the storage that are older than maxAge (and can be
        unlinked), with their metadata, and counts them. */
    method EvictByAge(storage: string, maxAge: Time, now: Time, unlinkable: set<Loc>) returns (removed: nat)
      modifies this
      ensures var gone := if maxAge <= 0 then {}
        else AgeVictims(old(files), old(metas), storage, now - maxAge, unlinkable);
        files == old(files) - gone && metas == old(metas) - gone && removed == |gone|
    {
      removed := 0;
      assert files - {} == files && metas - {} == metas;
      if maxAge <= 0 { return; }
      var todo := files.Keys;
      ghost var victims := AgeVictims(old(files), old(metas), storage, now - maxAge, unlinkable);
      ghost var gone: set<Loc> := {};
      while todo != {}
        invariant todo <= old(files).Keys && gone == victims - todo && removed == |gone|
        invariant files == old(files) - gone && metas == old(metas) - gone
        decreases todo
      {
        var l :| l in todo;
        NextVictim(victims, todo, gone, l);
        todo := todo - {l};
        var went := AgeOut(l, storage, now - maxAge, unlinkable, old(files), old(metas), gone);
        if went {
          removed := removed + 1;
          gone := gone + {l};
        }
      }
      assert gone == victims;
    }

    // ---- eviction by size ----

    /** The walk: the total size, and the files that may go. */
    method Survey(walk: seq<Loc>, now: Time) returns (total: nat, candidates: seq<CachedFile>)
      requires Enumerates(walk, files)
      ensures total == TotalSize(walk, files)
      ensures forall f :: f in candidates <==>
        f.path in files && f == Entry(files, f.path) && Candidate(files, metas, f.path, now)
      ensures forall i, j :: 0 <= i < j < |candidates| ==> candidates[i].path != candidates[j].path
    {
      total, candidates := 0, [];
      for i := 0 to |walk|
        invariant total == TotalSize(walk[..i], files)
        invariant forall f :: f in candidates <==>
          f.path in walk[..i] && f.path in files && f == Entry(files, f.path) && Candidate(files, metas, f.path, now)
        invariant forall a, b :: 0 <= a < b < |candidates| ==> candidates[a].path != candidates[b].path
      {
        var l := walk[i];
        assert l in walk && l in files;
        TotalAppend(walk[..i], l, files);
        assert walk[..i + 1] == walk[..i] + [l];
        total := total + |files[l].data|;
        if files[l].mtime <= now - EVICT_MIN_AGE && (l.storage == DOWNLOADS || (l in metas && !metas[l].pending)) {
          candidates := candidates + [Entry(files, l)];
        }
      }
      assert walk[..|walk|] == walk;
    }

    /** evictIfNeeded. evicted lists what was removed, in order. Nothing is removed while the cache
        is within its limit; each removal starts from a total over the limit; the total afterwards is
        the total before less what was removed; it is within the limit unless every candidate that
        can be unlinked is gone; no survivor among those is older than an evicted file (in whole
        seconds); and only candidates go. */
    method EvictIfNeeded(walk: seq<Loc>, now: Time, unlinkable: set<Loc>) returns (evicted: seq<Loc>)
      requires Enumerates(walk, files)
      modifies this
      ensures Distinct(evicted)
      ensures files == old(files) - (set l | l in evicted) && metas == old(metas) - (set l | l in evicted)
      ensures forall l :: l in evicted ==> l in unlinkable && Candidate(old(files), old(metas), l, now)
      ensures TotalSize(walk, files) + TotalSize(evicted, old(files)) == TotalSize(walk, old(files))
      ensures forall i :: 0 <= i < |evicted| ==>
        TotalSize(walk, old(files)) - TotalSize(evicted[..i], old(files)) > maxMB * 1024 * 1024 > 0
      ensures 0 < maxMB && TotalSize(walk, files) > maxMB * 1024 * 1024 ==>
        forall l :: l in files && l in unlinkable ==> !Candidate(old(files), old(metas), l, now)
      ensures forall e | e in evicted ::
        forall l | l in files && l in unlinkable && Candidate(old(files), old(metas), l, now) ::
          Second(old(files), e) <= Second(old(files), l)
    {
      evicted := [];
      assert files - {} == files && metas - {} == metas;
      if maxMB <= 0 { return; }
      var maxBytes := maxMB * 1024 * 1024;
      var total, candidates := Survey(walk, now);
      if total <= maxBytes { return; }
      var order := Sorted(candidates);
      SortedKeepsPaths(candidates, order);
      AllKept(candidates, order);
      var removed := RemoveOldest(walk, order, total, maxBytes, unlinkable);
      evicted := Paths(removed);
      PathsAsSet(removed);
      GreedyMeets(old(files), walk, order, total, maxBytes, unlinkable);
      assert forall l :: l in files && Candidate(old(files), old(metas), l, now) ==> Entry(old(files), l) in order;
    }

    /** The greedy loop over the sorted candidates. */
    method RemoveOldest(walk: seq<Loc>, order: seq<CachedFile>, size: nat, maxBytes: int, unlinkable: set<Loc>)
      returns (evicted: seq<CachedFile>)
      requires Distinct(walk) && size == TotalSize(walk, files)
      requires forall f :: f in order ==> f.path in walk && f.path in files && f == Entry(files, f.path)
      requires DistinctPaths(order)
      modifies this
      ensures evicted == Greedy(order, size, maxBytes, unlinkable)
      ensures var gone := set f | f in evicted :: f.path; files == old(files) - gone && metas == old(metas) - gone
      ensures TotalSize(walk, files) == size - SumOfSizes(evicted)
    {
      evicted := [];
      var total: int := size;
      var i := 0;
      ghost var gone: set<Loc> := {};
      ghost var plan := Greedy(order, size, maxBytes, unlinkable);
      assert files - {} == files && metas - {} == metas;
      assert order[0..] == order;
      while i < |order| && total > maxBytes
        invariant 0 <= i <= |order|
        invariant plan == evicted + Greedy(order[i..], total, maxBytes, unlinkable)
        invariant total == size - SumOfSizes(evicted) == TotalSize(walk, files)
        invariant forall k :: i <= k < |order| ==> order[k].path !in gone
        invariant gone == set f | f in evicted :: f.path
        invariant files == old(files) - gone && metas == old(metas) - gone
      {
        var f := order[i];
        GreedyStep(order, i, total, maxBytes, unlinkable);
        if f.path in unlinkable {
          Drop(f.path, walk, old(files), old(metas), gone);
          gone := gone + {f.path};
          total := total - f.size;
          SumAppend(evicted, f);
          evicted := evicted + [f];
        }
        i := i + 1;
      }
    }

    // ---- the scan at startup ----

    /** Queues exactly the content files not recorded as in sync, and leaves each of them protected:
        marked pending, or without metadata as it was. */
    method ScanPendingUploads(storages: set<string>, now: Time) returns (queued: set<Loc>)
      modifies this`metas
      ensures forall l :: l in queued <==>
        && l in old(files) && l.storage in storages && !EndsWith(l.key, ".tmp") && !EndsWith(l.key, ".meta")
        && !old(Covered(At(l)))
      ensures forall l :: l in queued ==> LocalAuthoritative(At(l)) && At(l).file == old(At(l)).file
      ensures forall l :: l !in queued ==> At(l) == old(At(l))
    {
      var todo := files.Keys;
      queued := {};
      while todo != {}
        invariant todo <= files.Keys
        invariant queued == set l | l in files && l !in todo && Unconfirmed(files, old(metas), l, storages)
        invariant forall l :: l in queued ==> LocalAuthoritative(At(l))
        invariant forall l :: l !in queued ==> At(l) == old(At(l))
        decreases todo
      {
        var l :| l in todo;
        todo := todo - {l};
        if l.storage in storages && !EndsWith(l.key, ".tmp") && !EndsWith(l.key, ".meta") {
          assert At(l) == old(At(l)) == SlotOf(files, old(metas), l);
          if l !in metas {
            queued := queued + {l};
          } else {
            var marked := MarkPending(l, now);
            if marked { queued := queued + {l}; }
          }
        }
      }
    }
  }

  /** The properties of the greedy choice, in terms of the cache it is made for. */
  lemma GreedyMeets(files: map<Loc, File>, walk: seq<Loc>, order: seq<CachedFile>, total: nat, maxBytes: int,
      unlinkable: set<Loc>)
    requires OldestFirst(order) && DistinctPaths(order)
    requires forall f :: f in order ==> f.path in files && f == Entry(files, f.path)
    ensures var g := Greedy(order, total, maxBytes, unlinkable);
      var evicted := Paths(g);
      && Distinct(evicted)
      && (forall l :: l in evicted ==> l in unlinkable && l in files && Entry(files, l) in order)
      && SumOfSizes(g) == TotalSize(evicted, files)
      && (forall i :: 0 <= i < |evicted| ==> total - TotalSize(evicted[..i], files) > maxBytes)
      && (total - SumOfSizes(g) > maxBytes ==> forall f :: f in order && f.path in unlinkable ==> f.path in evicted)
      && (forall e, f :: e in evicted && f in order && f.path in unlinkable && f.path !in evicted ==>
        Second(files, e) <= Second(files, f.path))
  {
    var g := Greedy(order, total, maxBytes, unlinkable);
    var evicted := Paths(g);
    GreedyChooses(order, total, maxBytes, unlinkable);
    BytesAreSizes(g, files);
    forall i | 0 <= i < |evicted| ensures total - TotalSize(evicted[..i], files) > maxBytes {
      GreedyIsNeeded(order, total, maxBytes, unlinkable, i);
      BytesAreSizes(g[..i], files);
      assert Paths(g[..i]) == evicted[..i];
    }
    if total - SumOfSizes(g) > maxBytes { GreedyLeavesNone(order, total, maxBytes, unlinkable); }
    GreedyMeetsOrder(files, order, total, maxBytes, unlinkable);
  }

  lemma GreedyLeavesNone(order: seq<CachedFile>, total: int, maxBytes: int, unlinkable: set<Loc>)
    requires total - SumOfSizes(Greedy(order, total, maxBytes, unlinkable)) > maxBytes
    ensures forall f :: f in order && f.path in unlinkable ==>
      f.path in Paths(Greedy(order, total, maxBytes, unlinkable))
  {
    forall f | f in order && f.path in unlinkable ensures f.path in Paths(Greedy(order, total, maxBytes, unlinkable)) {
      GreedyIsEnough(order, total, maxBytes, unlinkable, f);
      PathsHave(Greedy(order, total, maxBytes, unlinkable), f);
    }
  }

  lemma GreedyMeetsOrder(files: map<Loc, File>, order: seq<CachedFile>, total: int, maxBytes: int, unlinkable: set<Loc>)
    requires OldestFirst(order) && DistinctPaths(order)
    requires forall f :: f in order ==> f.path in files && f == Entry(files, f.path)
    ensures var evicted := Paths(Greedy(order, total, maxBytes, unlinkable));
      forall e, f :: e in evicted && f in order && f.path in unlinkable && f.path !in evicted ==>
        Second(files, e) <= Second(files, f.path)
  {
    var g := Greedy(order, total, maxBytes, unlinkable);
    GreedyChooses(order, total, maxBytes, unlinkable);
    forall e, f | e in Paths(g) && f in order && f.path in unlinkable && f.path !in Paths(g)
      ensures Second(files, e) <= Second(files, f.path)
    {
      var k :| 0 <= k < |g| && Paths(g)[k] == e;
      assert g[k] in g && g[k] == Entry(files, e);
      PathsHave(g, f);
      GreedyTakesOldest(order, total, maxBytes, unlinkable, g[k], f);
    }
  }

  lemma PathsHave(g: seq<CachedFile>, f: CachedFile)
    ensures f in g ==> f.path in Paths(g)
  {
    forall n | 0 <= n < |g| ensures g[n].path in Paths(g) {
      assert Paths(g)[n] == g[n].path;
    }
  }

  lemma AllKept(a: seq<CachedFile>, b: seq<CachedFile>)
    requires multiset(a) == multiset(b)
    ensures forall f :: f in b <==> f in a
  {
    assert forall f :: f in b <==> f in multiset(b);
    assert forall f :: f in a <==> f in multiset(a);
  }

  /** Sorting cannot make two entries share a path. */
  lemma SortedKeepsPaths(a: seq<CachedFile>, b: seq<CachedFile>)
    requires multiset(a) == multiset(b)
    requires forall i, j :: 0 <= i < j < |a| ==> a[i].path != a[j].path
    ensures forall i, j :: 0 <= i < j < |b| ==> b[i].path != b[j].path
  {
    AllKept(a, b);
    forall i, j | 0 <= i < j < |b| ensures b[i].path != b[j].path {
      if b[i].path == b[j].path {
        assert b[i] in a && b[j] in a;
        assert b[i] == b[j];
        Twice(b, i, j);
        assert multiset(a)[b[i]] >= 2;
        Once(a, b[i]);
      }
    }
  }

  lemma Twice(b: seq<CachedFile>, i: nat, j: nat)
    requires i < j < |b| && b[i] == b[j]
    ensures multiset(b)[b[i]] >= 2
  {
    assert b == b[..j] + b[j..];
    assert b[i] in b[..j] && b[j] in b[j..];
  }

  lemma {:induction false} Once(a: seq<CachedFile>, f: CachedFile)
    requires forall i, j :: 0 <= i < j < |a| ==> a[i].path != a[j].path
    ensures multiset(a)[f] <= 1
  {
    if a != [] {
      assert a == [a[0]] + a[1..];
      Once(a[1..], f);
      if a[0] == f {
        assert forall k :: 0 <= k < |a[1..]| ==> a[1..][k] == a[k + 1];
        assert f !in a[1..];
      }
    }
  }
}
