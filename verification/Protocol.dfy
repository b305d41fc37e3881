/** Everything that can happen to one path, as a state machine: PVE, other nodes, crashes,
    the watcher, background uploads split at every lock and S3 call, deletes and downloads split
    the same way, and the remaining handlers as single steps. Paths share no state, so the system
    is one such machine per path. */
module Protocol {
  import opened Metadata
  import opened Download
  import opened Resync
  import S = Sections

  /** A local version of the file: what stat can tell apart. */
  datatype Version = Version(inode: nat, mtime: Time)

  function Ver(f: File): Version { Version(f.inode, f.mtime) }

  function InfoVer(i: FileInfo): Version { Version(i.inode, i.mtime) }

  /** What happened so far: versions maps every local version to its bytes and latest every inode
      to its last mtime; stored is what S3 ever held under the key and etags what each ETag stood
      for; superseded are the versions found no newer than an S3 object when reconciled, discarded
      those a delete, or a download that found the object gone, set out to remove. */
  datatype History = History(
    versions: map<Version, Bytes>, latest: map<nat, Time>, stored: set<Bytes>, etags: map<ETag, Bytes>,
    superseded: set<Version>, discarded: set<Version>)

  /** The path's disk and bucket state, whether it is in the request channel and in the watcher's
      queue, and its history. */
  datatype World = World(now: Time, slot: Slot, s3: Option<Object>, requested: bool, queued: bool, h: History)

  /** Where an upload goroutine stands; info is its stat of the file it opened. */
  datatype Pc =
    | Begin
    | Opening
    | Publishing(info: FileInfo)
    | ReadingMeta(info: FileInfo)
    | Heading(info: FileInfo)
    | Reconciling(info: FileInfo, verdict: LocalState, head: HeadResult)
    | Restarting(info: FileInfo)
    | Putting(info: FileInfo)
    | InPut(info: FileInfo, landed: Option<Object>)
    | Checking(info: FileInfo, obj: Object)
    | Marking(info: FileInfo, obj: Object)
    | Remarking
    | Finishing(retry: bool)
    | Exited

  datatype Thread = Thread(pc: Pc, attempt: nat, started: Time)

  /** Where a delete (or rename, or copy) handler stands between its block and unblock. */
  datatype BlockPc =
    | Waiting(g: nat)
    | Holding
    | Deleting(landed: Option<nat>)
    | Deleted(epoch: nat)
    | Removed

  /** What a download went by: HEAD's answer, the file it found and the metadata it had read when it
      decided, and (for the theorems) what S3 held at that moment. */
  datatype Sight = Sight(head: HeadResult, slot: Slot, s3: Option<Object>)

  /** Where a download stands. body is the object as transferred, file what was renamed into place.
      An answer that did not come from a transfer has no body. */
  datatype DownPc =
    | Asked(head: HeadResult)
    | Reading(head: HeadResult)
    | Statting(head: HeadResult)
    | Comparing(head: HeadResult)
    | Acting(seen: Sight, what: Decision)
    | Fetching(seen: Sight)
    | Fetched(seen: Sight, body: Object)
    | Renamed(seen: Sight, body: Object, file: File)
    | Answered(seen: Sight, transferred: Option<Object>, response: Response)

  /** Goroutines and their shared variables, with history variables: accepted counts the
      triggers that were not handed back, served and waived its value at the last start of an
      attempt and at the last cancellation; runs are the outcomes of the finished upload runs. */
  datatype Coord = Coord(
    sh: S.Shared, threads: map<nat, Thread>, blockers: map<nat, BlockPc>,
    accepted: nat, served: nat, waived: nat, runs: Outcomes)

  /** The outcomes of the finished upload runs, the last one first. */
  datatype Outcomes = NoRun | Run(last: S.Finished, before: Outcomes)

  /** condemned counts the evictions that have picked the file and not yet come to it; epoch counts
      what creates the object other than background uploads. */
  datatype State = State(w: World, c: Coord, downs: map<nat, DownPc>, condemned: nat, epoch: nat)

  datatype Step =
    | Env(e: EnvStep)
    | Daemon(d: DaemonStep)
    | Upload(g: nat, u: UploadStep)
    | Handler(b: nat, k: HandlerStep)
    | Down(n: nat, p: DownStep)

  datatype EnvStep =
    | Tick(dt: nat)
    | PveWrite(f: File)
    | PveUnlink
    | RemotePut(obj: Object)
    | RemoteDelete
    | Crash

  /** The watcher, cache maintenance, resync, the effects of copy, rename and upload on this key, and
      the retry timer. */
  datatype DaemonStep =
    | WatchEvent
    | Scan
    | Request
    | TakeRequest
    | Dispatch
    | Condemn
    | Evict(unlinked: bool)
    | ResyncFile(re: ResyncEnv)
    | Store(obj: Object, f: File)
    | MoveAway(dropped: bool)
    | RetryFires(fired: bool)

  /** uploadNewFile and uploadOnce, split at every lock and S3 call. */
  datatype UploadStep =
    | Trigger(delivered: bool)
    | Start
    | Open(there: bool)
    | Publish
    | ReadMeta
    | HeadReturns(reached: bool)
    | Reconcile
    | Restart
    | StartPut
    | Land(obj: Object)
    | PutReturns(ok: bool)
    | Check
    | Mark
    | Remark
    | Finish

  /** handleDelete, split at its lock and S3 calls. */
  datatype HandlerStep =
    | Block
    | Waited
    | StartDelete
    | DeleteLands
    | DeleteReturns(ok: bool)
    | RemoveLocal(unlinked: bool)
    | Unblock

  /** handleDownload, split at its S3 calls and at every access to the cache entry: is there a file
      (Look), its metadata (Read), its stat if there was none (Judge), the metadata once more for
      IsStale (Compare), what it then does to the entry, the rename, and the metadata it records. The
      transfer is the moment S3 answers it; the bytes then arrive until the rename, or the failure. */
  datatype DownStep =
    | Ask(reached: bool)
    | Look
    | Read(delivered: bool)
    | Judge(delivered: bool)
    | Compare
    | Act(unlinked: bool)
    | Transfer(fetched: bool)
    | Rename(renamed: bool, inode: nat, mtime: Time)
    | Stamp

  // ---- the environment assumptions ----

  /** A version never comes back and is not dated in the future. */
  predicate FreshFile(w: World, f: File) {
    && f.inode > 0
    && Ver(f) !in w.h.versions
    && f.mtime <= w.now
  }

  /** Metadata never describes a write it was not recorded for: size, inode or mtime tell. */
  predicate Tellable(m: Option<FileMeta>, f: File) { !Covers(m, Stat(f)) }

  /** Between what it established about the file at the path and the metadata it then records for
      it, PVE does not write there. */
  predicate Stamping(pc: DownPc) { pc.Renamed? || (pc.Acting? && pc.what.Backfill?) }

  predicate NoneStamping(s: State) { forall n :: n in s.downs ==> !Stamping(s.downs[n]) }

  /** ETags are non-empty and determine content. */
  predicate FreshObject(w: World, o: Object) {
    o.etag != "" && (o.etag in w.h.etags ==> w.h.etags[o.etag] == o.data)
  }

  // ---- world updates ----

  function Written(w: World, f: File): World {
    var h := w.h.(versions := w.h.versions[Ver(f) := f.data], latest := w.h.latest[f.inode := f.mtime]);
    w.(slot := w.slot.(file := Some(f)), h := h)
  }

  function Stored(w: World, o: Object): World {
    w.(s3 := Some(o), h := w.h.(stored := w.h.stored + {o.data}, etags := w.h.etags[o.etag := o.data]))
  }

  /** A reconciliation found the object not older than the file. */
  function Judged(w: World, info: FileInfo, state: LocalState): World {
    if state.LocalInSync? || state.LocalOlder? then w.(h := w.h.(superseded := w.h.superseded + {InfoVer(info)})) else w
  }

  function WithSlot(w: World, s: Slot): World { w.(slot := s) }

  /** The reconciliation of a file without metadata. */
  function JudgedBy(w: World, head: HeadResult): World {
    if w.slot.file.Some? && w.slot.meta.None? then
      Judged(w, Stat(w.slot.file.value), ReconcileLocal(Stat(w.slot.file.value), head))
    else w
  }

  function AfterUpload(w: World, head: HeadResult, inUse: bool, r: ResyncResult): World {
    var w' := WithSlot(if inUse then w else JudgedBy(w, head), r.slot);
    if r.put.Some? then Stored(w', r.put.value) else w'
  }

  function AfterResync(w: World, env: ResyncEnv): World
    requires w.slot.file.Some?
  {
    var head := Head(w.s3, env.reached);
    AfterUpload(w, head, env.inUse, ResyncOne(w.slot, head, env, w.now))
  }

  // ---- guards ----

  predicate At(s: State, g: nat) { g in s.c.threads && g in s.c.sh.states }

  predicate Enabled(s: State, step: Step) {
    match step
    case Env(e) => EnvEnabled(s, e)
    case Down(n, p) => if p.Ask? then n !in s.downs else n in s.downs && PullEnabled(s.w, s.downs[n], p)
    case Daemon(d) => DaemonEnabled(s, d)
    case Upload(g, u) =>
      if u.Trigger? then g !in s.c.threads && (s.c.sh.upload.Some? ==> s.c.sh.upload.value in s.c.sh.states)
      else At(s, g) && MoveEnabled(s.w, s.c.threads[g].pc, u)
    case Handler(b, k) =>
      if k.Block? then b !in s.c.blockers && (s.c.sh.upload.Some? ==> s.c.sh.upload.value in s.c.sh.states)
      else b in s.c.blockers && HandlerEnabled(s, s.c.blockers[b], k)
  }

  predicate EnvEnabled(s: State, e: EnvStep) {
    match e
    case PveWrite(f) => FreshFile(s.w, f) && Tellable(s.w.slot.meta, f) && NoneStamping(s)
    case RemotePut(o) => FreshObject(s.w, o)
    case _ => true
  }

  predicate DaemonEnabled(s: State, d: DaemonStep) {
    var w := s.w;
    match d
    case TakeRequest => w.requested
    case Dispatch => w.queued && (w.slot.file.None? || s.c.sh.blocked == 0)
    case Condemn => w.slot.file.Some? && w.slot.meta.Some? && !w.slot.meta.value.pending
    case Evict(_) => s.condemned > 0
    case ResyncFile(env) =>
      w.slot.file.Some? && FreshObject(w, Object(w.slot.file.value.data, env.etag, env.putTime))
    case Store(o, f) => (FreshFile(w, f) || w.slot.file == Some(f)) && FreshObject(w, o) && o.data == f.data
    case RetryFires(_) => s.c.sh.timer
    case _ => true
  }

  predicate MoveEnabled(w: World, pc: Pc, u: UploadStep) {
    match u
    case Trigger(_) => false
    case Start => pc.Begin?
    case Open(there) => pc.Opening? && (there ==> w.slot.file.Some?)
    case Publish => pc.Publishing?
    case ReadMeta => pc.ReadingMeta?
    case HeadReturns(_) => pc.Heading?
    case Reconcile => pc.Reconciling?
    case Restart => pc.Restarting?
    case StartPut => pc.Putting?
    case Land(o) => pc.InPut? && pc.landed.None? && FreshObject(w, o) && CleanRead(w, pc.info, o)
    case PutReturns(ok) => pc.InPut? && (ok ==> pc.landed.Some?)
    case Check => pc.Checking?
    case Mark => pc.Marking?
    case Remark => pc.Remarking?
    case Finish => pc.Finishing?
  }

  predicate HandlerEnabled(s: State, pc: BlockPc, k: HandlerStep) {
    match k
    case Block => false
    case Waited => pc.Waiting? && (pc.g in s.c.threads ==> s.c.threads[pc.g].pc.Exited?)
    case StartDelete => pc.Holding?
    case DeleteLands => pc.Deleting? && pc.landed.None?
    case DeleteReturns(ok) => pc.Deleting? && (ok ==> pc.landed.Some?)
    case RemoveLocal(_) => pc.Deleted?
    case Unblock => pc.Holding? || pc.Removed?
  }

  /** PutObject reads the open file: the opened version's bytes, unless that inode was written
      to since, when what it read can be anything. */
  predicate CleanRead(w: World, info: FileInfo, o: Object) {
    && info.inode in w.h.latest
    && (w.h.latest[info.inode] == info.mtime ==> InfoVer(info) in w.h.versions && o.data == w.h.versions[InfoVer(info)])
  }

  predicate PullEnabled(w: World, pc: DownPc, p: DownStep) {
    match p
    case Ask(_) => false
    case Look => pc.Asked?
    case Read(_) => pc.Reading?
    case Judge(_) => pc.Statting?
    case Compare => pc.Comparing?
    case Act(_) => pc.Acting?
    case Transfer(fetched) => pc.Fetching? && (fetched ==> w.s3.Some?)
    case Rename(renamed, inode, mtime) => pc.Fetched? && (renamed ==> FreshFile(w, File(inode, mtime, pc.body.data)))
    case Stamp => pc.Renamed?
  }

  // ---- effects ----

  function Apply(s: State, step: Step): State
    requires Enabled(s, step)
  {
    match step
    case Env(e) => ApplyEnv(s, e)
    case Down(n, p) =>
      if p.Ask? then s.(downs := s.downs[n := Asked(Head(s.w.s3, p.reached))])
      else var (w', pc) := Pull(s.w, s.downs[n], p); s.(w := w', downs := s.downs[n := pc])
    case Daemon(d) => ApplyDaemon(s, d)
    case Upload(g, u) => ApplyUpload(s, g, u)
    case Handler(b, k) => ApplyHandler(s, b, k)
  }

  function ApplyEnv(s: State, e: EnvStep): State {
    var w := s.w;
    match e
    case Tick(dt) => s.(w := w.(now := w.now + dt))
    case PveWrite(f) => s.(w := Written(w, f))
    case PveUnlink => s.(w := WithSlot(w, w.slot.(file := None)))
    case RemotePut(o) => s.(w := Stored(w, o), epoch := s.epoch + 1)
    case RemoteDelete => s.(w := w.(s3 := None))
    case Crash => s.(w := w.(requested := false, queued := false), c := START, downs := map[], condemned := 0)
  }

  const START := Coord(S.IDLE, map[], map[], 0, 0, 0, NoRun)

  /** What scanPendingUploads does with this path. */
  function Scanned(w: World): World {
    if w.slot.file.None? then w
    else if w.slot.meta.None? then w.(queued := true)
    else var (slot, marked) := MarkPending(w.slot, w.now); WithSlot(w, slot).(queued := w.queued || marked)
  }

  function ApplyDaemon(s: State, d: DaemonStep): State
    requires DaemonEnabled(s, d)
  {
    var w := s.w;
    match d
    case WatchEvent =>
      if w.queued then s
      else var (slot, marked) := MarkPending(w.slot, w.now); s.(w := WithSlot(w, slot).(queued := marked))
    case Scan => s.(w := Scanned(w))
    case Request => s.(w := Requested(w, true))
    case TakeRequest => s.(w := w.(requested := false, queued := true))
    case Dispatch => s.(w := w.(queued := false))
    case Condemn => s.(condemned := s.condemned + 1)
    case Evict(unlinked) => s.(w := if unlinked then WithSlot(w, EMPTY) else w, condemned := s.condemned - 1)
    case ResyncFile(env) =>
      var w' := AfterResync(w, env);
      s.(w := w', epoch := if w'.s3 == w.s3 then s.epoch else s.epoch + 1)
    case Store(o, f) => s.(w := AfterStore(w, o, f), epoch := s.epoch + 1)
    case MoveAway(dropped) => s.(w := WithSlot(w, EMPTY).(s3 := if dropped then None else w.s3))
    case RetryFires(fired) => s.(w := Requested(w, fired), c := s.c.(sh := s.c.sh.(timer := false)))
  }

  function Requested(w: World, delivered: bool): World { w.(requested := w.requested || delivered) }

  /** The key is the destination of a copy, rename or upload: object, file and metadata at once. */
  function AfterStore(w: World, o: Object, f: File): World {
    var w' := Written(Stored(w, o), f);
    WithSlot(w', WriteMeta(w'.slot, InSync(o.etag, w.now, |f.data|), w.now))
  }

  /** The steps of a download after HEAD: their effect on the disk and its own position. */
  function Pull(w: World, pc: DownPc, p: DownStep): (World, DownPc)
    requires PullEnabled(w, pc, p)
  {
    match p
    case Look =>
      var seen := Sight(pc.head, w.slot, w.s3);
      (w, if w.slot.file.Some? then Reading(pc.head)
          else if pc.head.Found? then Fetching(seen)
          else Answered(seen, None, if pc.head.NotFound? then Gone else Error))
    case Read(delivered) =>
      var m := w.slot.meta;
      if m.None? then (w, Statting(pc.head))
      else
        var seen := Sight(pc.head, w.slot, w.s3);
        if m.value.pending then (Requested(w, delivered), Answered(seen, None, Present(w.slot.file)))
        else (w, Unsettled(seen))
    case Judge(delivered) => Judgement(w, pc.head, delivered)
    case Compare =>
      var seen := Sight(pc.head, w.slot, w.s3);
      (w, if IsStale(w.slot.meta, Announced(pc.head)) then Acting(seen, Refetch)
          else Answered(seen, None, Present(w.slot.file)))
    case Act(unlinked) =>
      var slot := Acted(w.slot, pc.what, pc.seen.head, unlinked, w.now);
      (if pc.what.Purge? then AfterRemove(w, unlinked) else WithSlot(w, slot),
       if pc.what.Refetch? then Fetching(pc.seen)
       else Answered(pc.seen, None, if pc.what.Backfill? then Response.Served(pc.what.data) else Gone))
    case Transfer(fetched) => (w, if fetched then Fetched(pc.seen, w.s3.value) else Answered(pc.seen, None, Error))
    case Rename(renamed, inode, mtime) =>
      var f := File(inode, mtime, pc.body.data);
      if renamed then (Written(w, f), Renamed(pc.seen, pc.body, f)) else (w, Answered(pc.seen, None, Error))
    case Stamp =>
      (WithSlot(w, Stamped(w.slot, Announced(pc.seen.head), |pc.body.data|, w.now)),
       Answered(pc.seen, Some(pc.body), Response.Served(pc.body.data)))
    case Ask(_) => (w, pc)
  }

  function Present(file: Option<File>): Response {
    if file.Some? then Response.Served(file.value.data) else NoFile
  }

  /** Neither authoritative nor in sync: it depends on HEAD, and then on how fresh the record is. */
  function Unsettled(seen: Sight): DownPc {
    match seen.head
    case NotFound => Acting(seen, Purge)
    case Unreachable => Answered(seen, None, Present(seen.slot.file))
    case Found(_) => Comparing(seen.head)
  }

  /** No metadata was there a moment ago: the file, if there still is one, against HEAD's answer. */
  function Judgement(w: World, head: HeadResult, delivered: bool): (World, DownPc) {
    var seen := Sight(head, Slot(w.slot.file, None), w.s3);
    if w.slot.file.None? then (w, Unsettled(seen))
    else
      var info := Stat(w.slot.file.value);
      var verdict := ReconcileLocal(info, head);
      var w' := Judged(w, info, verdict);
      if verdict.LocalMissing? || verdict.LocalNewer? then
        (Requested(w', delivered), Answered(seen, None, Present(w.slot.file)))
      else if verdict.LocalInSync? then (w', Acting(seen, Backfill(w.slot.file.value.data)))
      else (w', Unsettled(seen))
  }

  function SetThread(s: State, g: nat, t: Thread): State {
    s.(c := s.c.(threads := s.c.threads[g := t]))
  }

  function ApplyUpload(s: State, g: nat, u: UploadStep): State
    requires Enabled(s, Upload(g, u))
  {
    if u.Trigger? then Triggered(s, g, u.delivered)
    else
      var t := s.c.threads[g];
      match u
      case Start => SetThread(s.(c := s.c.(served := s.c.accepted)), g, t.(pc := Opening, started := s.w.now))
      case Publish =>
        var (sh, go) := S.Publish(s.c.sh, g, t.attempt);
        SetThread(s.(c := s.c.(sh := sh)), g, t.(pc := if go then ReadingMeta(t.pc.info) else Finishing(false)))
      case Check =>
        SetThread(s, g, t.(pc := if s.c.sh.states[g].canceled then Finishing(false) else Marking(t.pc.info, t.pc.obj)))
      case StartPut =>
        var ended := t.attempt in s.c.sh.states[g].ended;
        SetThread(s, g, t.(pc := if ended then Finishing(true) else InPut(t.pc.info, None)))
      case Finish => Ended(s, g)
      case _ =>
        var (w', t') := Move(s.w, t, u);
        SetThread(s.(w := w'), g, t')
  }

  function Triggered(s: State, g: nat, delivered: bool): State
    requires s.c.sh.upload.Some? ==> s.c.sh.upload.value in s.c.sh.states
  {
    var (sh, how) := S.Trigger(s.c.sh, g);
    var c := s.c;
    match how
    case HandedBack => s.(w := Requested(s.w, delivered))
    case Rerun => s.(c := c.(sh := sh, accepted := c.accepted + 1))
    case Started =>
      var threads := c.threads[g := Thread(Begin, 0, s.w.now)];
      s.(c := c.(sh := sh, accepted := c.accepted + 1, threads := threads))
  }

  /** The steps of uploadOnce that take no uploadsMu: their effect on the disk, S3 and the thread. */
  function Move(w: World, t: Thread, u: UploadStep): (World, Thread)
    requires MoveEnabled(w, t.pc, u)
  {
    match u
    case Open(there) => (w, t.(pc := if there then Publishing(Stat(w.slot.file.value)) else Finishing(false)))
    case ReadMeta =>
      (w, t.(pc := if w.slot.meta.None? then Heading(t.pc.info)
                   else if Covers(w.slot.meta, t.pc.info) then Finishing(false)
                   else Putting(t.pc.info)))
    case HeadReturns(reached) =>
      var head := Head(w.s3, reached);
      var verdict := ReconcileLocal(t.pc.info, head);
      (Judged(w, t.pc.info, verdict), t.(pc := Reconciling(t.pc.info, verdict, head)))
    case Reconcile =>
      (match t.pc.verdict
       case LocalUnknown => (w, t.(pc := Finishing(true)))
       case LocalInSync =>
         var o := if t.pc.head.Found? then t.pc.head.obj else Object("", "", 0);
         (Synced(w, t, InSync(o.etag, o.lastModified, |o.data|)), t.(pc := Finishing(false)))
       case LocalOlder => (Synced(w, t, InSync("", t.pc.info.mtime, t.pc.info.size)), t.(pc := Finishing(false)))
       case _ => (Pended(w), t.(pc := Restarting(t.pc.info))))
    case Restart => (w, t.(pc := Putting(t.pc.info), started := w.now))
    case Land(o) => (Stored(w, o), t.(pc := InPut(t.pc.info, Some(o))))
    case PutReturns(ok) => (w, t.(pc := if ok then Checking(t.pc.info, t.pc.landed.value) else Finishing(true)))
    case Mark =>
      (Synced(w, t, InSync(t.pc.obj.etag, w.now, t.pc.info.size)),
       t.(pc := if StillUploaded(w.slot, t.pc.info, Some(t.started)) then Finishing(false) else Remarking))
    case Remark => (Pended(w), t.(pc := Finishing(false)))
    case _ => (w, t)
  }

  function Synced(w: World, t: Thread, meta: FileMeta): World
    requires t.pc.Reconciling? || t.pc.Marking?
  {
    WithSlot(w, MarkSynced(w.slot, t.pc.info, Some(t.started), meta, w.now).0)
  }

  function Pended(w: World): World { WithSlot(w, MarkPending(w.slot, w.now).0) }

  function Ended(s: State, g: nat): State
    requires At(s, g) && s.c.threads[g].pc.Finishing?
  {
    var t := s.c.threads[g];
    var (sh, how) := S.Finish(s.c.sh, g, t.pc.retry);
    if how.Again? then s.(c := s.c.(sh := sh, threads := s.c.threads[g := t.(pc := Begin, attempt := t.attempt + 1)]))
    else s.(c := s.c.(sh := sh, threads := s.c.threads[g := t.(pc := Exited)], runs := Run(how, s.c.runs)))
  }

  function SetBlocker(s: State, b: nat, pc: BlockPc): State {
    s.(c := s.c.(blockers := s.c.blockers[b := pc]))
  }

  function ApplyHandler(s: State, b: nat, k: HandlerStep): State
    requires Enabled(s, Handler(b, k))
  {
    if k.Block? then Blocked(s, b)
    else
      var pc := s.c.blockers[b];
      match k
      case Waited => SetBlocker(s, b, Holding)
      case StartDelete => SetBlocker(s, b, Deleting(None))
      case DeleteLands => SetBlocker(s.(w := s.w.(s3 := None)), b, Deleting(Some(s.epoch)))
      case DeleteReturns(ok) => SetBlocker(s, b, if ok then Deleted(pc.landed.value) else Holding)
      case RemoveLocal(unlinked) =>
        SetBlocker(s.(w := AfterRemove(s.w, unlinked)), b, Removed)
      case Unblock => s.(c := s.c.(sh := S.Unblock(s.c.sh), blockers := s.c.blockers - {b}))
      case Block => s
  }

  function Blocked(s: State, b: nat): State
    requires s.c.sh.upload.Some? ==> s.c.sh.upload.value in s.c.sh.states
  {
    var (sh, wait) := S.Block(s.c.sh);
    s.(c := s.c.(sh := sh, blockers := s.c.blockers[b := if wait.Some? then Waiting(wait.value) else Holding],
                 waived := if wait.Some? then s.c.accepted else s.c.waived))
  }

  function AfterRemove(w: World, unlinked: bool): World {
    var w' := WithSlot(w, Remove(w.slot, unlinked, w.now));
    if w.slot.file.Some? then w'.(h := w.h.(discarded := w.h.discarded + {Ver(w.slot.file.value)})) else w'
  }

  // ---- runs ----

  /** A daemon starting on an empty path and bucket key. */
  predicate Init(s: State) {
    s == State(World(s.w.now, EMPTY, None, false, false, History(map[], map[], {}, map[], {}, {})), START, map[], 0, 0)
  }

  predicate Valid(s: State, steps: seq<Step>)
    decreases |steps|
  {
    steps == [] || (Enabled(s, steps[0]) && Valid(Apply(s, steps[0]), steps[1..]))
  }

  function Exec(s: State, steps: seq<Step>): State
    requires Valid(s, steps)
    decreases |steps|
  {
    if steps == [] then s else Exec(Apply(s, steps[0]), steps[1..])
  }

  /** The version is safe: its bytes were on S3, or S3 was found to hold an object not older
      than it, or a delete, or a download that found the object gone, set out to remove it. */
  predicate Accounted(w: World, v: Version) {
    || (v in w.h.versions && w.h.versions[v] in w.h.stored)
    || v in w.h.superseded
    || v in w.h.discarded
  }
}
