/** The cache entry of one key: the content file PVE and the daemon share, the
    JSON metadata beside it, and the small atomic operations of
    internal/cache/cache.go on the pair (each runs under fc.mu). */
module Metadata {

  datatype Option<+T> = None | Some(value: T)

  /** File and object contents. A size is always the length of the bytes. */
  type Bytes = string

  /** "" stands for "no ETag recorded", as in the JSON metadata. */
  type ETag = string

  /** Nanoseconds on the one clock that stamps mtimes, CachedAt and LastModified. */
  type Time = int

  /** A regular file. Inode numbers of files are positive; 0 in metadata means "not recorded". */
  datatype File = File(inode: nat, mtime: Time, data: Bytes)

  /** What stat reports. */
  datatype FileInfo = FileInfo(inode: nat, size: nat, mtime: Time)

  function Stat(f: File): FileInfo {
    FileInfo(f.inode, |f.data|, f.mtime)
  }

  datatype FileMeta = FileMeta(etag: ETag, lastModified: Time, size: nat, cachedAt: Time, pending: bool, inode: nat)

  /** An S3 object as stored under one key. */
  datatype Object = Object(data: Bytes, etag: ETag, lastModified: Time)

  /** One key in the cache directory. */
  datatype Slot = Slot(file: Option<File>, meta: Option<FileMeta>)

  const EMPTY := Slot(None, None)

  /** In-sync metadata describes the file's current state. */
  predicate Covers(m: Option<FileMeta>, info: FileInfo) {
    && m.Some?
    && !m.value.pending
    && m.value.size == info.size
    && info.mtime <= m.value.cachedAt
    && (m.value.inode == 0 || m.value.inode == info.inode)
  }

  predicate Covered(s: Slot) {
    s.file.Some? && Covers(s.meta, Stat(s.file.value))
  }

  /** The cached copy may hold content S3 does not have: pending, or nothing recorded. */
  predicate LocalAuthoritative(s: Slot) {
    s.file.Some? && (s.meta.None? || s.meta.value.pending)
  }

  /** A write the metadata neither covers nor marks: PVE has written, the watcher has not run yet. */
  predicate Unnoticed(s: Slot) {
    s.file.Some? && !LocalAuthoritative(s) && !Covered(s)
  }

  /** writeMeta: stamp CachedAt and the inode now at the path. */
  function WriteMeta(s: Slot, meta: FileMeta, now: Time): Slot {
    s.(meta := Some(meta.(cachedAt := now, inode := if s.file.Some? then s.file.value.inode else 0)))
  }

  function InSync(etag: ETag, lastModified: Time, size: nat): FileMeta {
    FileMeta(etag, lastModified, size, 0, false, 0)
  }

  function MarkPending(s: Slot, now: Time): (Slot, bool) {
    if s.file.None? || Covered(s) then (s, false)
    else
      var info := Stat(s.file.value);
      (WriteMeta(s, FileMeta("", info.mtime, info.size, 0, true, 0), now), true)
  }

  /** MarkSynced's acceptance test; started is None for the zero time. */
  predicate StillUploaded(s: Slot, uploaded: FileInfo, started: Option<Time>) {
    && s.file.Some?
    && Stat(s.file.value) == uploaded
    && !(started.Some? && s.meta.Some? && s.meta.value.pending && s.meta.value.cachedAt > started.value)
  }

  function MarkSynced(s: Slot, uploaded: FileInfo, started: Option<Time>, meta: FileMeta, now: Time): (Slot, bool) {
    if StillUploaded(s, uploaded, started) then (WriteMeta(s, meta, now), true) else (s, false)
  }

  /** Invalidate; unlinked is whether os.Remove could delete an existing file. */
  function Invalidate(s: Slot, unlinked: bool): Slot {
    if s.file.None? || unlinked then EMPTY else s
  }

  /** Remove: like Invalidate, but a leftover loses its pending flag. */
  function Remove(s: Slot, unlinked: bool, now: Time): Slot {
    if s.file.None? || unlinked then EMPTY
    else if s.meta.Some? && s.meta.value.pending then WriteMeta(s, s.meta.value.(pending := false), now)
    else s
  }

  /** HEAD as the daemon sees it. */
  datatype HeadResult = Found(obj: Object) | NotFound | Unreachable

  function Head(s3: Option<Object>, reached: bool): HeadResult {
    if !reached then Unreachable else if s3.Some? then Found(s3.value) else NotFound
  }

  /** The object a HEAD announced; a blank one if it announced none. */
  function Announced(head: HeadResult): Object {
    if head.Found? then head.obj else Object("", "", 0)
  }

  datatype LocalState = LocalUnknown | LocalMissing | LocalInSync | LocalNewer | LocalOlder

  function ReconcileLocal(info: FileInfo, head: HeadResult): LocalState {
    match head
    case NotFound => LocalMissing
    case Unreachable => LocalUnknown
    case Found(o) =>
      if info.mtime > o.lastModified then LocalNewer
      else if info.size == |o.data| then LocalInSync
      else LocalOlder
  }

  /** uploadOnce, reading this entry with nothing else going on, goes on to put the file. */
  predicate Pushes(s: Slot, s3: Option<Object>) {
    s.file.Some? && !Covered(s) &&
    (s.meta.None? ==>
      var verdict := ReconcileLocal(Stat(s.file.value), Head(s3, true));
      verdict.LocalMissing? || verdict.LocalNewer?)
  }

  /** IsStale on a slot's metadata. */
  predicate IsStale(m: Option<FileMeta>, o: Object) {
    m.None? || (if o.etag != "" then m.value.etag != o.etag else o.lastModified > m.value.lastModified)
  }

  /** Why uploads finish quietly: metadata stamped on a file that is not dated in the
      future covers it, so the watcher's late MarkPending for that write does nothing. */
  lemma StampedIsCovered(s: Slot, meta: FileMeta, now: Time)
    requires s.file.Some? && !meta.pending && meta.size == |s.file.value.data|
    requires s.file.value.mtime <= now
    ensures forall later :: MarkPending(WriteMeta(s, meta, now), later) == (WriteMeta(s, meta, now), false)
  {
    assert Covered(WriteMeta(s, meta, now));
  }

  /** MarkPending hides nothing: afterwards the slot is either empty, covered as before, or
      authoritative; and it answers true exactly in the last case. */
  lemma MarkPendingSettles(s: Slot, now: Time)
    ensures MarkPending(s, now).0.file == s.file
    ensures !Unnoticed(MarkPending(s, now).0)
    ensures MarkPending(s, now).1 <==> LocalAuthoritative(MarkPending(s, now).0) && MarkPending(s, now).0.meta.Some?
  {
  }

  /** A write that the watcher marks after an upload started is never recorded as synced by it, even one that
      stat cannot tell; a mark made before the start does not stand in the way. */
  lemma LaterMarkWins(s: Slot, marked: Time, info: FileInfo, started: Time, meta: FileMeta, now: Time)
    requires MarkPending(s, marked).1
    ensures var s' := MarkPending(s, marked).0;
      MarkSynced(s', info, Some(started), meta, now).1 <==> marked <= started && info == Stat(s.file.value)
    ensures var s' := MarkPending(s, marked).0;
      !MarkSynced(s', info, Some(started), meta, now).1 ==> MarkSynced(s', info, Some(started), meta, now).0 == s'
  {
  }

  /** A record made of one object is stale for another exactly if their ETags differ, or, where S3 gives
      none, the other is newer; without an ETag on record it is stale for every object that has one. */
  lemma RecordIsStaleIff(s: Slot, o: Object, size: nat, now: Time, other: Object)
    ensures IsStale(WriteMeta(s, InSync(o.etag, o.lastModified, size), now).meta, other)
      <==> if other.etag != "" then o.etag != other.etag else other.lastModified > o.lastModified
    ensures IsStale(None, other)
  {
  }

  /** A file that could not be unlinked along with its deleted object is uploaded again, exactly unless
      its size is on record and the record (restamped if it was pending) is of this file. One without
      metadata always is. */
  lemma LeftoverComesBackIff(s: Slot, now: Time)
    requires s.file.Some?
    ensures var left := Remove(s, false, now);
      && left.file == s.file
      && (!Pushes(left, None) <==>
          && s.meta.Some? && s.meta.value.size == |s.file.value.data|
          && (if s.meta.value.pending then s.file.value.mtime <= now else Covered(s)))
  {
  }

  /** The watcher notices a PVE write exactly when the new file differs in size from what is
      recorded, is dated after the record, or has another inode than a recorded one. */
  lemma WriteIsNoticedIff(s: Slot, f: File, now: Time)
    requires s.meta.Some? && !s.meta.value.pending
    ensures var m := s.meta.value;
      MarkPending(s.(file := Some(f)), now).1
      <==> |f.data| != m.size || f.mtime > m.cachedAt || (m.inode != 0 && f.inode != m.inode)
  {
  }
}
