/** handleDownload for one key (internal/api/api.go). */
module Download {
  import opened Metadata

  /** The oracles of one call: whether S3 answers HEAD, whether files can be unlinked, whether the
      transfer and the final rename succeed, and the inode and mtime of the downloaded file. */
  datatype DownloadEnv = DownloadEnv(reached: bool, unlinked: bool, fetched: bool, inode: nat, mtime: Time)

  /** The answer is a path: Served gives the bytes there at that moment, NoFile says there are none. */
  datatype Response = Served(data: Bytes) | NoFile | Gone | Error

  /** What a download resolves to do once it has read the cache entry. */
  datatype Decision =
    | Serve(data: Bytes, request: bool)
    | Backfill(data: Bytes)
    | Purge
    | Refetch
    | Fetch
    | NotThere
    | Failed

  /** The branches taken on the cache entry and what HEAD answered. */
  function Decide(s: Slot, head: HeadResult): Decision {
    if s.file.None? then
      match head
      case NotFound => NotThere
      case Unreachable => Failed
      case Found(_) => Fetch
    else
      var file := s.file.value;
      var state := if s.meta.None? then ReconcileLocal(Stat(file), head) else LocalUnknown;
      if (s.meta.Some? && s.meta.value.pending) || state.LocalMissing? || state.LocalNewer? then Serve(file.data, true)
      else if state.LocalInSync? then Backfill(file.data)
      else match head
        case NotFound => Purge
        case Unreachable => Serve(file.data, false)
        case Found(o) => if IsStale(s.meta, o) then Refetch else Serve(file.data, false)
  }

  /** StoreMeta after a transfer, or for a file found in sync. */
  function Stamped(s: Slot, o: Object, size: nat, now: Time): Slot {
    WriteMeta(s, InSync(o.etag, o.lastModified, size), now)
  }

  /** What the decision does to the cache entry before any transfer. */
  function Acted(s: Slot, what: Decision, head: HeadResult, unlinked: bool, now: Time): Slot {
    match what
    case Backfill(_) => Stamped(s, Announced(head), |Announced(head).data|, now)
    case Purge => Remove(s, unlinked, now)
    case Refetch => Invalidate(s, unlinked)
    case _ => s
  }

  datatype DownloadResult = DownloadResult(slot: Slot, response: Response, requested: bool, installed: bool)

  /** A download that nothing interrupts; head is what HEAD answered, body what the object was
      when it was transferred. */
  function HandleDownload(s: Slot, head: HeadResult, body: Option<Object>, env: DownloadEnv,
      now: Time): DownloadResult {
    var what := Decide(s, head);
    var s' := Acted(s, what, head, env.unlinked, now);
    match what
    case Serve(data, request) => DownloadResult(s', Served(data), request, false)
    case Backfill(data) => DownloadResult(s', Served(data), false, false)
    case Purge => DownloadResult(s', Gone, false, false)
    case NotThere => DownloadResult(s', Gone, false, false)
    case Failed => DownloadResult(s', Error, false, false)
    case _ =>
      if !env.fetched || body.None? then DownloadResult(s', Error, false, false)
      else
        var data := body.value.data;
        var installed := s'.(file := Some(File(env.inode, env.mtime, data)));
        DownloadResult(Stamped(installed, Announced(head), |data|, now), Served(data), false, true)
  }

  /** All a download can do to the cache entry: nothing, drop it, record a same-size file as in
      sync, or install what was transferred. */
  predicate DownloadEffect(s: Slot, head: HeadResult, body: Option<Object>, env: DownloadEnv, now: Time,
      r: DownloadResult) {
    if r.installed then
      && body.Some? && head.Found?
      && r.slot == Slot(Some(File(env.inode, env.mtime, body.value.data)),
                        Some(FileMeta(head.obj.etag, head.obj.lastModified, |body.value.data|, now, false, env.inode)))
    else r.slot == s || r.slot == EMPTY || (Backfillable(s, head) && r.slot == Backfilled(s, head, now))
  }

  /** A file without metadata that S3 has, at the same size and not older. */
  predicate Backfillable(s: Slot, head: HeadResult) {
    s.file.Some? && s.meta.None? && head.Found? && ReconcileLocal(Stat(s.file.value), head).LocalInSync?
  }

  function Backfilled(s: Slot, head: HeadResult, now: Time): Slot
    requires head.Found?
  {
    WriteMeta(s, InSync(head.obj.etag, head.obj.lastModified, |head.obj.data|), now)
  }

  lemma DownloadEffects(s: Slot, head: HeadResult, body: Option<Object>, env: DownloadEnv, now: Time)
    ensures DownloadEffect(s, head, body, env, now, HandleDownload(s, head, body, env, now))
  {
  }
}
