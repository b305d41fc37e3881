/** Never lose a local write: what every reachable state says about the file, its metadata and S3. */
module NoLoss {
  import opened Metadata
  import opened Download
  import opened Resync
  import opened Protocol
  import opened Coordination

  // ---- history only grows ----

  /** later is a possible future of h: nothing known is forgotten, and an inode once written to
      never returns to an earlier version. */
  ghost predicate Extends(h: History, later: History) {
    && (forall v :: v in h.versions ==> v in later.versions && later.versions[v] == h.versions[v])
    && (forall i :: i in h.latest ==>
      i in later.latest && (later.latest[i] == h.latest[i] || Version(i, later.latest[i]) !in h.versions))
    && h.stored <= later.stored
    && (forall e :: e in h.etags ==> e in later.etags && later.etags[e] == h.etags[e])
    && h.superseded <= later.superseded
    && h.discarded <= later.discarded
  }

  ghost predicate Grows(w: World, later: World) {
    w.now <= later.now && Extends(w.h, later.h)
  }

  lemma GrowsTransitive(a: World, b: World, c: World)
    requires Grows(a, b) && Grows(b, c)
    ensures Grows(a, c)
  {
  }

  lemma AccountedStays(w: World, later: World, v: Version)
    requires Grows(w, later) && Accounted(w, v)
    ensures Accounted(later, v)
  {
  }

  // ---- the invariant ----

  ghost predicate FileKnown(w: World) {
    w.slot.file.Some? ==>
      var f := w.slot.file.value;
      && f.inode > 0 && f.mtime <= w.now
      && Ver(f) in w.h.versions && w.h.versions[Ver(f)] == f.data
      && f.inode in w.h.latest && w.h.latest[f.inode] == f.mtime
  }

  ghost predicate ObjectKnown(w: World) {
    w.s3.Some? ==> Known(w, w.s3.value)
  }

  /** Metadata covers only a file whose bytes were on S3 under this key, or that S3 was found to
      hold an object not older than, or that a delete was asked to remove. */
  predicate CoveredIsAccounted(w: World) {
    Covered(w.slot) ==> Accounted(w, Ver(w.slot.file.value))
  }

  ghost predicate WorldInv(w: World) {
    && FileKnown(w) && ObjectKnown(w) && CoveredIsAccounted(w)
    && (w.slot.meta.Some? ==> w.slot.meta.value.cachedAt <= w.now)
    && PendingUntagged(w.slot)
  }

  /** A pending mark carries no ETag. */
  predicate PendingUntagged(s: Slot) { s.meta.Some? && s.meta.value.pending ==> s.meta.value.etag == "" }

  ghost predicate InfoOk(w: World, info: FileInfo) {
    && InfoVer(info) in w.h.versions && |w.h.versions[InfoVer(info)]| == info.size
    && info.inode in w.h.latest && info.mtime <= w.now
  }

  /** A landed object is on record, and unless the opened inode was written to since, it holds
      the opened version's bytes. */
  ghost predicate UploadedOk(w: World, info: FileInfo, o: Object) {
    && InfoOk(w, info)
    && Known(w, o)
    && (w.h.latest[info.inode] == info.mtime ==> o.data == w.h.versions[InfoVer(info)])
  }

  ghost predicate ThreadOk(w: World, t: Thread) {
    && t.started <= w.now
    && match t.pc
       case Publishing(info) => InfoOk(w, info)
       case ReadingMeta(info) => InfoOk(w, info)
       case Heading(info) => InfoOk(w, info)
       case Reconciling(info, verdict, head) =>
         InfoOk(w, info) && verdict == ReconcileLocal(info, head) &&
         (verdict.LocalInSync? || verdict.LocalOlder? ==> InfoVer(info) in w.h.superseded)
       case Restarting(info) => InfoOk(w, info)
       case Putting(info) => InfoOk(w, info)
       case InPut(info, landed) => InfoOk(w, info) && (landed.Some? ==> UploadedOk(w, info, landed.value))
       case Checking(info, o) => UploadedOk(w, info, o)
       case Marking(info, o) => UploadedOk(w, info, o)
       case _ => true
  }

  /** The object is on record. */
  ghost predicate Known(w: World, o: Object) {
    o.data in w.h.stored && o.etag != "" && o.etag in w.h.etags && w.h.etags[o.etag] == o.data
  }

  ghost predicate HeadKnown(w: World, head: HeadResult) { head.Found? ==> Known(w, head.obj) }

  predicate FileAccounted(w: World) { w.slot.file.Some? ==> Accounted(w, Ver(w.slot.file.value)) }

  /** What HEAD answered when a download resolves to change the cache entry. */
  predicate Resolves(head: HeadResult, what: Decision) {
    match what
    case Backfill(_) => head.Found?
    case Purge => head.NotFound?
    case Refetch => head.Found?
    case _ => false
  }

  /** What a download in progress relies on. */
  ghost predicate DownOk(w: World, pc: DownPc) {
    && (Stamping(pc) ==> FileAccounted(w))
    && match pc
       case Asked(head) => HeadKnown(w, head)
       case Reading(head) => HeadKnown(w, head)
       case Statting(head) => HeadKnown(w, head)
       case Comparing(head) => head.Found? && HeadKnown(w, head)
       case Acting(seen, what) => HeadKnown(w, seen.head) && Resolves(seen.head, what)
       case Fetching(seen) => seen.head.Found? && HeadKnown(w, seen.head)
       case Fetched(seen, body) => seen.head.Found? && HeadKnown(w, seen.head) && Known(w, body)
       case Renamed(seen, body, _) => seen.head.Found? && HeadKnown(w, seen.head) && Known(w, body)
       case Answered(seen, transferred, response) =>
         transferred.Some? ==>
           && seen.head.Found? && HeadKnown(w, seen.head) && Known(w, transferred.value)
           && response == Response.Served(transferred.value.data)
  }

  ghost predicate DownsOk(s: State) {
    forall n :: n in s.downs ==> DownOk(s.w, s.downs[n])
  }

  ghost predicate ThreadsOk(s: State) {
    forall g :: g in s.c.threads ==> ThreadOk(s.w, s.c.threads[g])
  }

  ghost predicate Inv(s: State) { CoordInv(s.c) && WorldInv(s.w) && ThreadsOk(s) && DownsOk(s) }

  lemma ThreadStaysOk(w: World, later: World, t: Thread)
    requires ThreadOk(w, t) && Grows(w, later)
    ensures ThreadOk(later, t)
  {
  }

  /** A step leaves the file, removes it, or puts an accounted one there; only PVE does otherwise. */
  predicate PutsAccounted(w: World, later: World) {
    w.slot.file != later.slot.file ==> FileAccounted(later)
  }

  lemma DownStaysOk(w: World, later: World, pc: DownPc)
    requires DownOk(w, pc) && Grows(w, later) && (Stamping(pc) ==> PutsAccounted(w, later))
    ensures DownOk(later, pc)
  {
  }

  // ---- world updates ----

  lemma WrittenGrows(w: World, f: File)
    requires FreshFile(w, f)
    ensures Grows(w, Written(w, f)) && FileKnown(Written(w, f))
  {
  }

  lemma RewrittenSame(w: World, f: File)
    requires FileKnown(w) && w.slot.file == Some(f)
    ensures Written(w, f) == w
  {
  }

  lemma StoredGrows(w: World, o: Object)
    requires FreshObject(w, o)
    ensures Grows(w, Stored(w, o)) && ObjectKnown(Stored(w, o))
  {
  }

  /** Metadata written for an accounted file (or a pending mark) keeps the invariant. */
  lemma MetaKeeps(w: World, meta: FileMeta)
    requires WorldInv(w) && w.slot.file.Some?
    requires if meta.pending then meta.etag == "" else Accounted(w, Ver(w.slot.file.value))
    ensures WorldInv(WithSlot(w, WriteMeta(w.slot, meta, w.now)))
    ensures Grows(w, WithSlot(w, WriteMeta(w.slot, meta, w.now)))
  {
    var w' := WithSlot(w, WriteMeta(w.slot, meta, w.now));
    if !meta.pending { AccountedStays(w, w', Ver(w.slot.file.value)); }
  }

  lemma MarkPendingKeeps(w: World)
    requires WorldInv(w)
    ensures var w' := WithSlot(w, MarkPending(w.slot, w.now).0); WorldInv(w') && Grows(w, w')
  {
    if w.slot.file.Some? && !Covered(w.slot) {
      var info := Stat(w.slot.file.value);
      MetaKeeps(w, FileMeta("", info.mtime, info.size, 0, true, 0));
    }
  }

  /** MarkSynced keeps the invariant when the file it was asked about is accounted for
      if it is still the one at the path. */
  lemma MarkSyncedKeeps(w: World, info: FileInfo, started: Option<Time>, meta: FileMeta)
    requires WorldInv(w)
    requires !meta.pending && (StillUploaded(w.slot, info, started) ==> Accounted(w, InfoVer(info)))
    ensures var w' := WithSlot(w, MarkSynced(w.slot, info, started, meta, w.now).0); WorldInv(w') && Grows(w, w')
  {
    if StillUploaded(w.slot, info, started) {
      assert Ver(w.slot.file.value) == InfoVer(info);
      MetaKeeps(w, meta);
    }
  }

  /** The heart of "rewrite during upload": if the file at the path is still the one that was
      opened, what landed on S3 is its content. */
  lemma AcceptedUploadIsCurrent(w: World, info: FileInfo, started: Option<Time>, o: Object)
    requires FileKnown(w) && UploadedOk(w, info, o) && StillUploaded(w.slot, info, started)
    ensures o.data == w.slot.file.value.data && Accounted(w, Ver(w.slot.file.value))
  {
    assert Ver(w.slot.file.value) == InfoVer(info);
  }

  lemma JudgedByKeeps(w: World, head: HeadResult)
    requires WorldInv(w)
    ensures WorldInv(JudgedBy(w, head)) && Grows(w, JudgedBy(w, head))
  {
    if Covered(w.slot) { AccountedStays(w, JudgedBy(w, head), Ver(w.slot.file.value)); }
  }

  lemma DropKeeps(w: World)
    requires WorldInv(w)
    ensures WorldInv(WithSlot(w, EMPTY)) && Grows(w, WithSlot(w, EMPTY))
  {
  }

  lemma BackfillKeeps(w: World, head: HeadResult)
    requires WorldInv(w) && Backfillable(w.slot, head)
    ensures var w' := WithSlot(JudgedBy(w, head), Backfilled(w.slot, head, w.now)); WorldInv(w') && Grows(w, w')
  {
    JudgedByKeeps(w, head);
    MetaKeeps(JudgedBy(w, head), InSync(head.obj.etag, head.obj.lastModified, |head.obj.data|));
  }

  /** A transferred file is renamed into place: its bytes were on S3. */
  lemma InstallKeeps(w: World, f: File)
    requires WorldInv(w) && FreshFile(w, f) && f.data in w.h.stored
    ensures WorldInv(Written(w, f)) && Grows(w, Written(w, f)) && FileAccounted(Written(w, f))
  {
    WrittenGrows(w, f);
  }

  /** The metadata a download writes, for a file it knows to be accounted for, or for none. */
  lemma StampKeeps(w: World, o: Object, size: nat)
    requires WorldInv(w) && FileAccounted(w)
    ensures var w' := WithSlot(w, Stamped(w.slot, o, size, w.now)); WorldInv(w') && Grows(w, w')
  {
    if w.slot.file.Some? { MetaKeeps(w, InSync(o.etag, o.lastModified, size)); }
  }

  lemma JudgementKeeps(w: World, head: HeadResult, delivered: bool)
    requires WorldInv(w) && HeadKnown(w, head)
    ensures var (w', pc) := Judgement(w, head, delivered); WorldInv(w') && Grows(w, w') && DownOk(w', pc)
  {
    if w.slot.file.Some? {
      var info := Stat(w.slot.file.value);
      JudgeKeeps(w, info, ReconcileLocal(info, head));
    }
  }

  lemma ActKeeps(w: World, pc: DownPc, unlinked: bool)
    requires WorldInv(w) && DownOk(w, pc) && pc.Acting?
    ensures var (w', pc') := Pull(w, pc, Act(unlinked)); WorldInv(w') && Grows(w, w') && DownOk(w', pc')
  {
    var head := pc.seen.head;
    if pc.what.Backfill? {
      StampKeeps(w, Announced(head), |Announced(head).data|);
    } else {
      RemoveKeeps(w, unlinked);
      DropKeeps(w);
    }
  }

  /** The steps of a download: the world they leave, and what the download then relies on. */
  lemma PullKeeps(w: World, pc: DownPc, p: DownStep)
    requires WorldInv(w) && DownOk(w, pc) && PullEnabled(w, pc, p)
    ensures var (w', pc') := Pull(w, pc, p); WorldInv(w') && Grows(w, w') && DownOk(w', pc')
  {
    match p {
      case Judge(delivered) => JudgementKeeps(w, pc.head, delivered);
      case Act(unlinked) => ActKeeps(w, pc, unlinked);
      case Rename(renamed, inode, mtime) => if renamed { InstallKeeps(w, File(inode, mtime, pc.body.data)); }
      case Stamp => StampKeeps(w, Announced(pc.seen.head), |pc.body.data|);
      case _ =>
    }
  }

  lemma UploadKeeps(w: World, head: HeadResult, env: ResyncEnv, r: ResyncResult)
    requires WorldInv(w) && w.slot.file.Some?
    requires FreshObject(w, Object(w.slot.file.value.data, env.etag, env.putTime))
    requires ResyncEffect(w.slot, head, env, w.now, r)
    ensures WorldInv(AfterUpload(w, head, env.inUse, r)) && Grows(w, AfterUpload(w, head, env.inUse, r))
  {
    JudgedByKeeps(w, head);
    if r.put.Some? {
      var w1 := JudgedBy(w, head);
      var w2 := Stored(w1, r.put.value);
      StoredGrows(w1, r.put.value);
      GrowsTransitive(w, w1, w2);
      if Covered(w.slot) { AccountedStays(w, w2, Ver(w.slot.file.value)); }
      UploadedMetaKeeps(w2, env.etag, r.slot);
      GrowsTransitive(w, w2, WithSlot(w2, r.slot));
      assert AfterUpload(w, head, env.inUse, r) == WithSlot(w2, r.slot);
    } else if r.slot != w.slot {
      BackfillKeeps(w, head);
    }
  }

  lemma UploadedMetaKeeps(w: World, etag: ETag, slot: Slot)
    requires FileKnown(w) && ObjectKnown(w) && PendingUntagged(w.slot)
    requires w.slot.meta.Some? ==> w.slot.meta.value.cachedAt <= w.now
    requires w.slot.file.Some? && w.slot.file.value.data in w.h.stored
    requires slot == w.slot || slot == MarkPending(w.slot, w.now).0
      || slot == WriteMeta(w.slot, InSync(etag, w.now, |w.slot.file.value.data|), w.now)
    ensures WorldInv(WithSlot(w, slot)) && Grows(w, WithSlot(w, slot))
  {
    assert WorldInv(w);
    MarkPendingKeeps(w);
    MetaKeeps(w, InSync(etag, w.now, |w.slot.file.value.data|));
  }

  lemma StoreKeeps(w: World, o: Object, f: File)
    requires WorldInv(w) && (FreshFile(w, f) || w.slot.file == Some(f)) && FreshObject(w, o) && o.data == f.data
    ensures WorldInv(AfterStore(w, o, f)) && Grows(w, AfterStore(w, o, f))
  {
    var w1 := Stored(w, o);
    StoredGrows(w, o);
    if FreshFile(w, f) {
      WrittenGrows(w1, f);
      GrowsTransitive(w, w1, Written(w1, f));
    } else {
      RewrittenSame(w1, f);
    }
    assert f.data in Written(w1, f).h.stored;
  }

  lemma RemoveKeeps(w: World, unlinked: bool)
    requires WorldInv(w)
    ensures WorldInv(AfterRemove(w, unlinked)) && Grows(w, AfterRemove(w, unlinked))
  {
  }

  // ---- each step ----

  lemma EnvKeeps(s: State, e: EnvStep)
    requires WorldInv(s.w) && EnvEnabled(s, e)
    ensures WorldInv(ApplyEnv(s, e).w) && Grows(s.w, ApplyEnv(s, e).w)
  {
    match e {
      case PveWrite(f) => WrittenGrows(s.w, f);
      case RemotePut(o) => StoredGrows(s.w, o);
      case _ =>
    }
  }

  lemma DaemonKeeps(s: State, d: DaemonStep)
    requires WorldInv(s.w) && DaemonEnabled(s, d)
    ensures WorldInv(ApplyDaemon(s, d).w) && Grows(s.w, ApplyDaemon(s, d).w)
  {
    match d {
      case WatchEvent => MarkPendingKeeps(s.w);
      case Scan => MarkPendingKeeps(s.w);
      case Evict(_) => DropKeeps(s.w);
      case ResyncFile(env) =>
        var head := Head(s.w.s3, env.reached);
        ResyncEffects(s.w.slot, head, env, s.w.now);
        UploadKeeps(s.w, head, env, ResyncOne(s.w.slot, head, env, s.w.now));
      case Store(o, f) => StoreKeeps(s.w, o, f);
      case MoveAway(_) => DropKeeps(s.w);
      case _ =>
    }
  }

  lemma HandlerKeeps(s: State, b: nat, k: HandlerStep)
    requires WorldInv(s.w) && Enabled(s, Handler(b, k))
    ensures WorldInv(Apply(s, Handler(b, k)).w) && Grows(s.w, Apply(s, Handler(b, k)).w)
  {
    if k.RemoveLocal? { RemoveKeeps(s.w, k.unlinked); }
  }

  /** The steps of uploadOnce: the world they leave, and what the thread then relies on. */
  lemma MoveKeeps(w: World, t: Thread, u: UploadStep)
    requires WorldInv(w) && ThreadOk(w, t) && MoveEnabled(w, t.pc, u)
    ensures var (w', t') := Move(w, t, u); WorldInv(w') && Grows(w, w') && ThreadOk(w', t')
  {
    match u {
      case HeadReturns(reached) => JudgeKeeps(w, t.pc.info, ReconcileLocal(t.pc.info, Head(w.s3, reached)));
      case Reconcile => ReconcileKeeps(w, t);
      case Land(o) => LandKeeps(w, t.pc.info, o);
      case Mark =>
        if StillUploaded(w.slot, t.pc.info, Some(t.started)) {
          AcceptedUploadIsCurrent(w, t.pc.info, Some(t.started), t.pc.obj);
        }
        MarkSyncedKeeps(w, t.pc.info, Some(t.started), InSync(t.pc.obj.etag, w.now, t.pc.info.size));
      case Remark => MarkPendingKeeps(w);
      case _ =>
    }
  }

  lemma JudgeKeeps(w: World, info: FileInfo, verdict: LocalState)
    requires WorldInv(w)
    ensures WorldInv(Judged(w, info, verdict)) && Grows(w, Judged(w, info, verdict))
  {
    if Covered(w.slot) { AccountedStays(w, Judged(w, info, verdict), Ver(w.slot.file.value)); }
  }

  lemma ReconcileKeeps(w: World, t: Thread)
    requires WorldInv(w) && ThreadOk(w, t) && t.pc.Reconciling?
    ensures var (w', t') := Move(w, t, Reconcile); WorldInv(w') && Grows(w, w') && ThreadOk(w', t')
  {
    var info := t.pc.info;
    match t.pc.verdict {
      case LocalUnknown =>
      case LocalInSync =>
        var o := t.pc.head.obj;
        MarkSyncedKeeps(w, info, Some(t.started), InSync(o.etag, o.lastModified, |o.data|));
      case LocalOlder => MarkSyncedKeeps(w, info, Some(t.started), InSync("", info.mtime, info.size));
      case _ => MarkPendingKeeps(w);
    }
  }

  lemma LandKeeps(w: World, info: FileInfo, o: Object)
    requires WorldInv(w) && InfoOk(w, info) && FreshObject(w, o) && CleanRead(w, info, o)
    ensures WorldInv(Stored(w, o)) && Grows(w, Stored(w, o)) && UploadedOk(Stored(w, o), info, o)
  {
    StoredGrows(w, o);
    if Covered(w.slot) { AccountedStays(w, Stored(w, o), Ver(w.slot.file.value)); }
  }

  /** An upload step acts on the world as Move says, and leaves the other threads alone. */
  lemma UploadIsMove(s: State, g: nat, u: UploadStep)
    requires Enabled(s, Upload(g, u)) && !u.Trigger?
    ensures var s' := Apply(s, Upload(g, u));
      && s'.w == Move(s.w, s.c.threads[g], u).0
      && g in s'.c.threads && s'.c.threads == s.c.threads[g := s'.c.threads[g]]
      && (IsMove(u) && !Peeks(u) ==> s'.c.threads[g] == Move(s.w, s.c.threads[g], u).1)
  {
  }

  lemma LockedStepKeepsThread(s: State, g: nat, u: UploadStep)
    requires u.Start? || u.Publish? || Peeks(u) || u.Finish?
    requires WorldInv(s.w) && Enabled(s, Upload(g, u)) && ThreadOk(s.w, s.c.threads[g])
    ensures ThreadOk(s.w, Apply(s, Upload(g, u)).c.threads[g])
  {
  }

  lemma UploadStepKeepsWorld(s: State, g: nat, u: UploadStep)
    requires WorldInv(s.w) && ThreadsOk(s) && Enabled(s, Upload(g, u))
    ensures var s' := Apply(s, Upload(g, u));
      && WorldInv(s'.w) && Grows(s.w, s'.w)
      && forall h :: h in s'.c.threads ==>
        ThreadOk(s'.w, s'.c.threads[h]) || (h in s.c.threads && s'.c.threads[h] == s.c.threads[h])
  {
    if !u.Trigger? {
      UploadIsMove(s, g, u);
      MoveKeeps(s.w, s.c.threads[g], u);
      if !IsMove(u) || Peeks(u) { LockedStepKeepsThread(s, g, u); }
    }
  }

  lemma StepGrows(s: State, step: Step)
    requires WorldInv(s.w) && ThreadsOk(s) && DownsOk(s) && Enabled(s, step)
    ensures var s' := Apply(s, step);
      && WorldInv(s'.w) && Grows(s.w, s'.w)
      && forall h :: h in s'.c.threads ==>
        ThreadOk(s'.w, s'.c.threads[h]) || (h in s.c.threads && s'.c.threads[h] == s.c.threads[h])
  {
    match step {
      case Down(n, p) => if !p.Ask? { PullKeeps(s.w, s.downs[n], p); }
      case Env(e) => EnvKeeps(s, e);
      case Daemon(d) => DaemonKeeps(s, d); DaemonLeavesCoord(s, d);
      case Upload(g, u) => UploadStepKeepsWorld(s, g, u);
      case Handler(b, k) => HandlerKeeps(s, b, k);
    }
  }

  lemma DaemonPutsAccounted(s: State, d: DaemonStep)
    requires WorldInv(s.w) && DaemonEnabled(s, d)
    ensures PutsAccounted(s.w, ApplyDaemon(s, d).w) && ApplyDaemon(s, d).downs == s.downs
  {
    if d.ResyncFile? {
      ResyncEffects(s.w.slot, Head(s.w.s3, d.re.reached), d.re, s.w.now);
      assert ApplyDaemon(s, d).w.slot.file == s.w.slot.file;
    }
    if d.Store? { assert d.obj.data in ApplyDaemon(s, d).w.h.stored; }
  }

  lemma PullPutsAccounted(w: World, pc: DownPc, p: DownStep)
    requires DownOk(w, pc) && PullEnabled(w, pc, p)
    ensures PutsAccounted(w, Pull(w, pc, p).0)
  {
  }

  lemma MoveKeepsFile(w: World, t: Thread, u: UploadStep)
    requires MoveEnabled(w, t.pc, u)
    ensures Move(w, t, u).0.slot.file == w.slot.file
  {
  }

  lemma UploadKeepsDowns(s: State, g: nat, u: UploadStep)
    requires Enabled(s, Upload(g, u))
    ensures var s' := Apply(s, Upload(g, u));
      s'.w.slot.file == s.w.slot.file && s'.downs == s.downs && s'.condemned == s.condemned
  {
    if !u.Trigger? {
      UploadIsMove(s, g, u);
      MoveKeepsFile(s.w, s.c.threads[g], u);
    }
  }

  lemma HandlerKeepsDowns(s: State, b: nat, k: HandlerStep)
    requires Enabled(s, Handler(b, k))
    ensures var s' := Apply(s, Handler(b, k));
      PutsAccounted(s.w, s'.w) && s'.downs == s.downs && s'.condemned == s.condemned
  {
  }

  lemma OwnStepKeepsDown(s: State, n: nat, p: DownStep)
    requires WorldInv(s.w) && DownsOk(s) && Enabled(s, Down(n, p))
    ensures var s' := Apply(s, Down(n, p));
      && PutsAccounted(s.w, s'.w) && n in s'.downs && s'.downs == s.downs[n := s'.downs[n]] && DownOk(s'.w, s'.downs[n])
  {
    if !p.Ask? {
      PullKeeps(s.w, s.downs[n], p);
      PullPutsAccounted(s.w, s.downs[n], p);
    }
  }

  /** Downloads in progress keep what they rely on, whoever moves. */
  lemma StepKeepsDowns(s: State, step: Step)
    requires WorldInv(s.w) && ThreadsOk(s) && DownsOk(s) && Enabled(s, step)
    ensures DownsOk(Apply(s, step))
  {
    StepGrows(s, step);
    var s' := Apply(s, step);
    match step {
      case Env(e) =>
      case Daemon(d) => DaemonPutsAccounted(s, d);
      case Upload(g, u) => UploadKeepsDowns(s, g, u);
      case Handler(b, k) => HandlerKeepsDowns(s, b, k);
      case Down(n, p) => OwnStepKeepsDown(s, n, p);
    }
    if step != Env(Crash) { DownsStayOk(s, s'); }
  }

  lemma DownsStayOk(s: State, s': State)
    requires DownsOk(s) && Grows(s.w, s'.w) && (NoneStamping(s) || PutsAccounted(s.w, s'.w))
    requires forall m :: m in s'.downs ==> (m in s.downs && s'.downs[m] == s.downs[m]) || DownOk(s'.w, s'.downs[m])
    ensures DownsOk(s')
  {
    forall m | m in s'.downs ensures DownOk(s'.w, s'.downs[m]) {
      if m in s.downs && s'.downs[m] == s.downs[m] { DownStaysOk(s.w, s'.w, s.downs[m]); }
    }
  }

  lemma StepKeepsInv(s: State, step: Step)
    requires Inv(s) && Enabled(s, step)
    ensures Inv(Apply(s, step)) && Grows(s.w, Apply(s, step).w)
  {
    StepKeepsCoord(s, step);
    StepGrows(s, step);
    StepKeepsDowns(s, step);
    var s' := Apply(s, step);
    forall h | h in s'.c.threads ensures ThreadOk(s'.w, s'.c.threads[h]) {
      if h in s.c.threads && s'.c.threads[h] == s.c.threads[h] { ThreadStaysOk(s.w, s'.w, s.c.threads[h]); }
    }
  }
}
