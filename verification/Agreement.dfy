/** Never serve the wrong bytes: what downloads answer, and when they cannot. */
module Agreement {
  import opened Metadata
  import opened Download
  import opened Resync
  import opened Protocol
  import opened Coordination
  import opened NoLoss
  import opened Durability

  /** Metadata that covers the file and carries an ETag describes the content of that ETag. */
  ghost predicate EtagInv(w: World) {
    Covered(w.slot) && w.slot.meta.value.etag != "" ==>
      w.slot.meta.value.etag in w.h.etags && w.h.etags[w.slot.meta.value.etag] == w.slot.file.value.data
  }

  /** The assumption the source states for files without metadata: same size and not newer than the
      object means same content. */
  ghost predicate SameSizeIsSame(w: World, info: FileInfo, head: HeadResult) {
    head.Found? && InfoVer(info) in w.h.versions && ReconcileLocal(info, head).LocalInSync?
    ==> head.obj.data == w.h.versions[InfoVer(info)]
  }

  /** Besides that: metadata left at the path does not describe a file renamed into place there; and when a
      download records metadata, the file then at the path, if the record fits its size, has the bytes that
      HEAD announced. */
  ghost predicate Trusted(s: State, step: Step)
    requires Enabled(s, step)
  {
    var w := s.w;
    match step
    case Daemon(d) =>
      d.ResyncFile? ==> SameSizeIsSame(w, Stat(w.slot.file.value), Head(w.s3, true))
    case Upload(g, u) =>
      u.HeadReturns? ==> SameSizeIsSame(w, s.c.threads[g].pc.info, Head(w.s3, true))
    case Down(n, p) => p.Ask? || TrustedPull(w, s.downs[n], p)
    case _ => true
  }

  ghost predicate TrustedPull(w: World, pc: DownPc, p: DownStep)
    requires PullEnabled(w, pc, p)
  {
    match p
    case Judge(_) => w.slot.file.Some? ==> SameSizeIsSame(w, Stat(w.slot.file.value), pc.head)
    case Act(_) => pc.what.Backfill? ==> FitsAnnounced(w, |Announced(pc.seen.head).data|, pc.seen.head)
    case Rename(renamed, inode, mtime) => renamed ==> Tellable(w.slot.meta, File(inode, mtime, pc.body.data))
    case Stamp => FitsAnnounced(w, |pc.body.data|, pc.seen.head)
    case _ => true
  }

  predicate FitsAnnounced(w: World, size: nat, head: HeadResult) {
    w.slot.file.Some? && |w.slot.file.value.data| == size ==> w.slot.file.value.data == Announced(head).data
  }

  ghost predicate TrustedRun(s: State, steps: seq<Step>)
    requires Valid(s, steps)
    decreases |steps|
  {
    steps == [] || (Trusted(s, steps[0]) && TrustedRun(Apply(s, steps[0]), steps[1..]))
  }

  /** A reconciliation that found the same size found the same content. */
  ghost predicate EtagThread(w: World, t: Thread) {
    t.pc.Reconciling? && t.pc.verdict.LocalInSync? && t.pc.head.Found? ==>
      && InfoVer(t.pc.info) in w.h.versions && t.pc.head.obj.data == w.h.versions[InfoVer(t.pc.info)]
      && t.pc.head.obj.etag in w.h.etags && w.h.etags[t.pc.head.obj.etag] == t.pc.head.obj.data
  }

  ghost predicate EtagThreads(s: State) {
    forall g :: g in s.c.threads ==> EtagThread(s.w, s.c.threads[g])
  }

  // ---- what a download answers ----

  /** What plain S3 would answer. */
  function S3Answer(s3: Option<Object>): Response {
    if s3.Some? then Response.Served(s3.value.data) else Gone
  }

  /** S3 still holds what HEAD announced. */
  predicate SameContent(head: HeadResult, s3: Option<Object>) {
    match head
    case NotFound => s3.None?
    case Found(o) => s3.Some? && s3.value.data == o.data
    case Unreachable => false
  }

  /** An answer is what was transferred, or the cached bytes if S3 did not answer HEAD, or the bytes of a
      locally authoritative file (and if that was found in sync, the bytes HEAD announced); otherwise (and
      unless PVE's write went unnoticed, or the file has gone by then) it is S3's own at the moment of the
      decision, exactly if S3 then still held what HEAD had announced. An error means that S3 did not
      answer, for a key that is not cached, or that a transfer failed. */
  predicate Agrees(seen: Sight, transferred: Option<Object>, response: Response) {
    if transferred.Some? then seen.head.Found? && response == Response.Served(transferred.value.data)
    else if response.Error? then seen.head.Found? || (seen.head.Unreachable? && seen.slot.file.None?)
    else if response.NoFile? then seen.slot.file.None?
    else if seen.head.Unreachable? then
      seen.slot.file.Some? && response == Response.Served(seen.slot.file.value.data)
    else if LocalAuthoritative(seen.slot) then
      && response == Response.Served(seen.slot.file.value.data)
      && (seen.slot.meta.None? && ReconcileLocal(Stat(seen.slot.file.value), seen.head).LocalInSync? ==>
          seen.slot.file.value.data == Announced(seen.head).data)
    else !Unnoticed(seen.slot) ==> (response == S3Answer(seen.s3) <==> SameContent(seen.head, seen.s3))
  }

  /** What a download in progress knows about its answer. */
  predicate EtagDown(pc: DownPc) {
    match pc
    case Acting(seen, Backfill(data)) =>
      && seen.slot.meta.None? && seen.slot.file.Some? && seen.slot.file.value.data == data
      && data == Announced(seen.head).data
    case Acting(seen, Purge) => !LocalAuthoritative(seen.slot)
    case Answered(seen, transferred, response) => Agrees(seen, transferred, response)
    case _ => true
  }

  ghost predicate EtagDowns(s: State) { forall n :: n in s.downs ==> EtagDown(s.downs[n]) }

  lemma JudgementAgrees(w: World, head: HeadResult, delivered: bool)
    requires WorldInv(w) && EtagInv(w) && HeadKnown(w, head)
    requires w.slot.file.Some? ==> SameSizeIsSame(w, Stat(w.slot.file.value), head)
    ensures var (w', pc) := Judgement(w, head, delivered); EtagInv(w') && EtagDown(pc)
  {
  }

  /** The record that matches HEAD's ETag, if it covers the file, tells its content. */
  lemma CompareAgrees(w: World, head: HeadResult)
    requires WorldInv(w) && EtagInv(w) && HeadKnown(w, head) && head.Found?
    ensures var (w', pc) := Pull(w, Comparing(head), Compare); EtagInv(w') && EtagDown(pc)
  {
  }

  lemma ReadAgrees(w: World, head: HeadResult, delivered: bool)
    requires WorldInv(w) && EtagInv(w) && HeadKnown(w, head)
    ensures var (w', pc) := Pull(w, Reading(head), Read(delivered)); EtagInv(w') && EtagDown(pc)
  {
  }

  lemma ActAgrees(w: World, pc: DownPc, unlinked: bool)
    requires WorldInv(w) && EtagInv(w) && DownOk(w, pc) && EtagDown(pc) && pc.Acting?
    requires TrustedPull(w, pc, Act(unlinked))
    ensures var (w', pc') := Pull(w, pc, Act(unlinked)); EtagInv(w') && EtagDown(pc')
  {
  }

  lemma StampAgrees(w: World, pc: DownPc)
    requires WorldInv(w) && EtagInv(w) && DownOk(w, pc) && EtagDown(pc) && pc.Renamed?
    requires TrustedPull(w, pc, Stamp)
    ensures var (w', pc') := Pull(w, pc, Stamp); EtagInv(w') && EtagDown(pc')
  {
  }

  lemma PullAgrees(w: World, pc: DownPc, p: DownStep)
    requires WorldInv(w) && EtagInv(w) && DownOk(w, pc) && EtagDown(pc)
    requires PullEnabled(w, pc, p) && TrustedPull(w, pc, p)
    ensures var (w', pc') := Pull(w, pc, p); EtagInv(w') && EtagDown(pc')
  {
    match p {
      case Look =>
      case Read(delivered) => ReadAgrees(w, pc.head, delivered);
      case Judge(delivered) => JudgementAgrees(w, pc.head, delivered);
      case Compare => CompareAgrees(w, pc.head);
      case Act(unlinked) => ActAgrees(w, pc, unlinked);
      case Transfer(_) =>
      case Rename(_, _, _) =>
      case Stamp => StampAgrees(w, pc);
      case _ =>
    }
  }

  lemma EnvKeepsEtag(s: State, e: EnvStep)
    requires WorldInv(s.w) && EtagInv(s.w) && EnvEnabled(s, e)
    ensures EtagInv(ApplyEnv(s, e).w)
  {
  }

  lemma ResyncKeepsEtag(w: World, head: HeadResult, env: ResyncEnv, r: ResyncResult)
    requires WorldInv(w) && EtagInv(w) && w.slot.file.Some?
    requires FreshObject(w, Object(w.slot.file.value.data, env.etag, env.putTime))
    requires ResyncEffect(w.slot, head, env, w.now, r)
    requires head.Found? ==> w.s3 == Some(head.obj)
    requires SameSizeIsSame(w, Stat(w.slot.file.value), Head(w.s3, true))
    ensures EtagInv(AfterUpload(w, head, env.inUse, r))
  {
  }

  lemma DaemonKeepsEtag(s: State, d: DaemonStep)
    requires WorldInv(s.w) && EtagInv(s.w) && DaemonEnabled(s, d) && Trusted(s, Daemon(d))
    ensures EtagInv(ApplyDaemon(s, d).w)
  {
    match d {
      case ResyncFile(env) =>
        var head := Head(s.w.s3, env.reached);
        ResyncEffects(s.w.slot, head, env, s.w.now);
        ResyncKeepsEtag(s.w, head, env, ResyncOne(s.w.slot, head, env, s.w.now));
      case _ =>
    }
  }

  lemma MoveKeepsEtag(w: World, t: Thread, u: UploadStep)
    requires WorldInv(w) && EtagInv(w) && ThreadOk(w, t) && EtagThread(w, t) && MoveEnabled(w, t.pc, u)
    requires u.HeadReturns? ==> SameSizeIsSame(w, t.pc.info, Head(w.s3, true))
    ensures var (w', t') := Move(w, t, u); EtagInv(w') && EtagThread(w', t')
  {
    if u.Mark? && StillUploaded(w.slot, t.pc.info, Some(t.started)) {
      AcceptedUploadIsCurrent(w, t.pc.info, Some(t.started), t.pc.obj);
    }
  }

  lemma UploadKeepsEtag(s: State, g: nat, u: UploadStep)
    requires WorldInv(s.w) && ThreadsOk(s) && EtagInv(s.w) && EtagThreads(s)
    requires Enabled(s, Upload(g, u)) && Trusted(s, Upload(g, u))
    ensures var s' := Apply(s, Upload(g, u));
      && EtagInv(s'.w)
      && forall h :: h in s'.c.threads ==>
        EtagThread(s'.w, s'.c.threads[h]) || (h in s.c.threads && s'.c.threads[h] == s.c.threads[h])
  {
    if !u.Trigger? {
      UploadIsMove(s, g, u);
      MoveKeepsEtag(s.w, s.c.threads[g], u);
    }
  }

  lemma EtagThreadStays(w: World, later: World, t: Thread)
    requires EtagThread(w, t) && Grows(w, later)
    ensures EtagThread(later, t)
  {
  }

  lemma StepMovesEtag(s: State, step: Step)
    requires Inv(s) && EtagInv(s.w) && EtagThreads(s) && EtagDowns(s) && Enabled(s, step) && Trusted(s, step)
    ensures var s' := Apply(s, step);
      && EtagInv(s'.w)
      && forall h :: h in s'.c.threads ==>
        EtagThread(s'.w, s'.c.threads[h]) || (h in s.c.threads && s'.c.threads[h] == s.c.threads[h])
  {
    match step {
      case Env(e) => EnvKeepsEtag(s, e);
      case Daemon(d) => DaemonKeepsEtag(s, d); DaemonLeavesCoord(s, d);
      case Down(n, p) => if !p.Ask? { PullAgrees(s.w, s.downs[n], p); }
      case Upload(g, u) => UploadKeepsEtag(s, g, u);
      case Handler(b, k) => HandlerKeepsEtag(s, b, k);
    }
  }

  lemma HandlerKeepsEtag(s: State, b: nat, k: HandlerStep)
    requires WorldInv(s.w) && EtagInv(s.w) && Enabled(s, Handler(b, k))
    ensures EtagInv(Apply(s, Handler(b, k)).w) && Apply(s, Handler(b, k)).c.threads == s.c.threads
  {
  }

  lemma StepKeepsAnswers(s: State, step: Step)
    requires Inv(s) && EtagInv(s.w) && EtagDowns(s) && Enabled(s, step) && Trusted(s, step)
    ensures EtagDowns(Apply(s, step))
  {
    match step {
      case Env(_) =>
      case Daemon(d) => DaemonPutsAccounted(s, d);
      case Upload(g, u) => UploadKeepsDowns(s, g, u);
      case Handler(b, k) => HandlerKeepsDowns(s, b, k);
      case Down(n, p) => if !p.Ask? { PullAgrees(s.w, s.downs[n], p); }
    }
  }

  lemma StepKeepsEtag(s: State, step: Step)
    requires Inv(s) && EtagInv(s.w) && EtagThreads(s) && EtagDowns(s) && Enabled(s, step) && Trusted(s, step)
    ensures EtagInv(Apply(s, step).w) && EtagThreads(Apply(s, step)) && EtagDowns(Apply(s, step))
  {
    StepMovesEtag(s, step);
    StepKeepsAnswers(s, step);
    StepGrows(s, step);
    var s' := Apply(s, step);
    forall h | h in s'.c.threads ensures EtagThread(s'.w, s'.c.threads[h]) {
      if h in s.c.threads && s'.c.threads[h] == s.c.threads[h] { EtagThreadStays(s.w, s'.w, s.c.threads[h]); }
    }
  }

  lemma {:induction false} RunKeepsEtag(s: State, steps: seq<Step>)
    requires Inv(s) && EtagInv(s.w) && EtagThreads(s) && EtagDowns(s) && Valid(s, steps) && TrustedRun(s, steps)
    ensures Inv(Exec(s, steps)) && EtagInv(Exec(s, steps).w) && EtagDowns(Exec(s, steps))
    decreases |steps|
  {
    if steps != [] {
      StepKeepsEtag(s, steps[0]);
      StepKeepsInv(s, steps[0]);
      RunKeepsEtag(Apply(s, steps[0]), steps[1..]);
    }
  }

  /** The transfer of download n, whenever there is one, finds the content that its HEAD announced. */
  predicate SteadyFor(s: State, steps: seq<Step>, n: nat)
    requires Valid(s, steps)
    decreases |steps|
  {
    steps == [] ||
    ((steps[0] == Down(n, Transfer(true)) ==> s.w.s3.value.data == Announced(s.downs[n].seen.head).data)
     && SteadyFor(Apply(s, steps[0]), steps[1..], n))
  }

  predicate SteadyDown(pc: DownPc) {
    match pc
    case Fetched(seen, body) => body.data == Announced(seen.head).data
    case Renamed(seen, body, _) => body.data == Announced(seen.head).data
    case Answered(seen, transferred, _) => transferred.Some? ==> transferred.value.data == Announced(seen.head).data
    case _ => true
  }

  lemma PullStaysSteady(w: World, pc: DownPc, p: DownStep)
    requires PullEnabled(w, pc, p) && SteadyDown(pc)
    requires p == Transfer(true) ==> w.s3.value.data == Announced(pc.seen.head).data
    ensures SteadyDown(Pull(w, pc, p).1)
  {
  }

  lemma OthersLeaveDown(s: State, step: Step, n: nat)
    requires Enabled(s, step) && !(step.Down? && step.n == n)
    ensures var s' := Apply(s, step); n in s'.downs ==> n in s.downs && s'.downs[n] == s.downs[n]
  {
    match step {
      case Env(_) =>
      case Daemon(_) =>
      case Upload(g, u) => UploadKeepsDowns(s, g, u);
      case Handler(b, k) => HandlerKeepsDowns(s, b, k);
      case Down(_, _) =>
    }
  }

  lemma {:induction false} RunStaysSteady(s: State, steps: seq<Step>, n: nat)
    requires Valid(s, steps) && SteadyFor(s, steps, n) && (n in s.downs ==> SteadyDown(s.downs[n]))
    ensures n in Exec(s, steps).downs ==> SteadyDown(Exec(s, steps).downs[n])
    decreases |steps|
  {
    if steps != [] {
      var step := steps[0];
      if step.Down? && step.n == n {
        if !step.p.Ask? { PullStaysSteady(s.w, s.downs[n], step.p); }
      } else {
        OthersLeaveDown(s, step, n);
      }
      RunStaysSteady(Apply(s, step), steps[1..], n);
    }
  }

  /** In any interleaving with uploads, deletes, evictions, other downloads, PVE and other nodes: what a
      download answers from a transfer S3 has held, and it is what HEAD announced if S3 held that content
      when the transfer came. Every other answer is the bytes of a locally authoritative file, or (with S3
      answering and no write unnoticed) S3's own at the moment of the decision, "gone" exactly when S3 has
      nothing, if and only if S3 then still held what HEAD had announced. */
  lemma DownloadAgreesWithS3(s: State, steps: seq<Step>, n: nat)
    requires Init(s) && Valid(s, steps)
    requires n in Exec(s, steps).downs && Exec(s, steps).downs[n].Answered?
    ensures var pc := Exec(s, steps).downs[n];
      && (TrustedRun(s, steps) ==> Agrees(pc.seen, pc.transferred, pc.response))
      && (pc.transferred.Some? ==>
          && Known(Exec(s, steps).w, pc.transferred.value) && pc.response == Response.Served(pc.transferred.value.data)
          && pc.seen.head.Found?
          && (SteadyFor(s, steps, n) ==> pc.transferred.value.data == pc.seen.head.obj.data))
  {
    ReachableInv(s, steps);
    assert DownOk(Exec(s, steps).w, Exec(s, steps).downs[n]);
    if SteadyFor(s, steps, n) { RunStaysSteady(s, steps, n); }
    if TrustedRun(s, steps) { TrustedRunAgrees(s, steps); }
  }

  lemma TrustedRunAgrees(s: State, steps: seq<Step>)
    requires Init(s) && Valid(s, steps) && TrustedRun(s, steps)
    ensures Inv(Exec(s, steps)) && EtagInv(Exec(s, steps).w) && EtagDowns(Exec(s, steps))
  {
    assert Inv(s) && EtagInv(s.w) && EtagThreads(s) && EtagDowns(s);
    RunKeepsEtag(s, steps);
  }

  // ---- undisturbed downloads ----

  /** The steps in which a download reads the entry, with nothing between them. */
  function ReadThrough(w: World, head: HeadResult): (World, DownPc) {
    var (w1, pc1) := Pull(w, Asked(head), Look);
    var (w2, pc2) := if pc1.Reading? then Pull(w1, pc1, Read(true)) else (w1, pc1);
    var (w3, pc3) := if pc2.Statting? then Pull(w2, pc2, Judge(true)) else (w2, pc2);
    if pc3.Comparing? then Pull(w3, pc3, Compare) else (w3, pc3)
  }

  /** They come to the decision that the source's branches make of one state of the entry. */
  lemma ReadThroughDecides(w: World, head: HeadResult)
    ensures var (w', pc) := ReadThrough(w, head);
      var what := Decide(w.slot, head);
      && w'.slot == w.slot
      && w'.requested == (w.requested || (what.Serve? && what.request))
      && match what
         case Serve(data, _) => pc.Answered? && pc.transferred.None? && pc.response == Response.Served(data)
         case NotThere => pc.Answered? && pc.response == Gone
         case Failed => pc.Answered? && pc.response == Error
         case Fetch => pc.Fetching? && pc.seen.head == head
         case _ => pc.Acting? && pc.what == what && pc.seen.head == head
  {
  }

  /** A locally authoritative file is left untouched, served and requested for upload exactly unless
      it has no metadata and S3 could not be asked or has an object not older than it. */
  lemma AuthoritativeIsServedIff(w: World, head: HeadResult)
    requires LocalAuthoritative(w.slot)
    ensures var (w', pc) := ReadThrough(w, head);
      var f := w.slot.file.value;
      && w'.slot == w.slot
      && (Decide(w.slot, head) == Serve(f.data, true) <==>
          w.slot.meta.Some? || head.NotFound? || (head.Found? && f.mtime > head.obj.lastModified))
      && (Decide(w.slot, head) == Serve(f.data, true) ==>
          w'.requested && pc.Answered? && pc.transferred.None? && pc.response == Response.Served(f.data))
  {
    ReadThroughDecides(w, head);
  }

  /** What plain S3 with a local write-back file would answer; during an outage, the cached file, if any. */
  function Expected(w: World, reached: bool): Response {
    var f := w.slot.file;
    var head := Head(w.s3, true);
    if !reached then (if f.Some? then Response.Served(f.value.data) else Error)
    else if f.Some? && w.slot.meta.Some? && w.slot.meta.value.pending then Response.Served(f.value.data)
    else if f.Some? && w.slot.meta.None? && (w.s3.None? || ReconcileLocal(Stat(f.value), head).LocalNewer?) then
      Response.Served(f.value.data)
    else S3Answer(w.s3)
  }

  /** A download that nothing interrupts, in any reachable state with no unnoticed write, answers exactly
      that, S3 reached or not; it requests an upload exactly if it serves a file known to be authoritative, and
      then, or without S3, leaves the entry alone. */
  lemma UninterruptedDownloadAgrees(s: State, steps: seq<Step>, env: DownloadEnv)
    requires Init(s) && Valid(s, steps) && TrustedRun(s, steps)
    requires var w := Exec(s, steps).w;
      && !Unnoticed(w.slot) && env.fetched
      && (w.slot.file.Some? ==> SameSizeIsSame(w, Stat(w.slot.file.value), Head(w.s3, true)))
    ensures var w := Exec(s, steps).w;
      var r := HandleDownload(w.slot, Head(w.s3, env.reached), w.s3, env, w.now);
      && r.response == Expected(w, env.reached)
      && (r.response.Served? ==> r.slot.file.Some? && r.slot.file.value.data == r.response.data)
      && (r.requested || !env.reached ==> r.slot == w.slot)
      && (r.requested <==> LocalAuthoritative(w.slot) && (w.slot.meta.Some? || (env.reached && (w.s3.None?
                           || w.slot.file.value.mtime > w.s3.value.lastModified))))
  {
    TrustedRunAgrees(s, steps);
    QuietDownloadAgrees(Exec(s, steps).w, env);
  }

  lemma QuietDownloadAgrees(w: World, env: DownloadEnv)
    requires WorldInv(w) && EtagInv(w) && !Unnoticed(w.slot) && env.fetched
    requires w.slot.file.Some? ==> SameSizeIsSame(w, Stat(w.slot.file.value), Head(w.s3, true))
    ensures var r := HandleDownload(w.slot, Head(w.s3, env.reached), w.s3, env, w.now);
      && r.response == Expected(w, env.reached)
      && (r.response.Served? ==> r.slot.file.Some? && r.slot.file.value.data == r.response.data)
      && (r.requested || !env.reached ==> r.slot == w.slot)
      && (r.requested <==> LocalAuthoritative(w.slot) && (w.slot.meta.Some? || (env.reached && (w.s3.None?
                           || w.slot.file.value.mtime > w.s3.value.lastModified))))
  {
  }

  /** The cache is one: after an uninterrupted download that served an object, the next one serves the same
      bytes, changes nothing and transfers nothing, as long as S3 holds the same object. */
  lemma SecondDownloadIsHit(s: Slot, o: Object, first: DownloadEnv, second: DownloadEnv, now: Time, later: Time)
    requires o.etag != "" && first.fetched
    requires var r := HandleDownload(s, Found(o), Some(o), first, now); r.response.Served? && !r.requested
    ensures var r := HandleDownload(s, Found(o), Some(o), first, now);
      HandleDownload(r.slot, Found(o), None, second, later) == DownloadResult(r.slot, r.response, false, false)
  {
  }

  /** The machine's steps of a download, when nothing comes between them, are that download. */
  lemma UninterruptedIsHandleDownload(w: World, env: DownloadEnv)
    requires FreshFile(w, File(env.inode, env.mtime, "")) && w.s3.Some?
    ensures var head := Head(w.s3, env.reached);
      var r := HandleDownload(w.slot, head, w.s3, env, w.now);
      var (w1, pc1) := ReadThrough(w, head);
      var (w2, pc2) := if pc1.Acting? then Pull(w1, pc1, Act(env.unlinked)) else (w1, pc1);
      if pc2.Answered? then w2.slot == r.slot && pc2.response == r.response && !r.installed
      else
        && pc2.Fetching?
        && (env.fetched ==>
            var (w3, pc3) := Pull(w2, Pull(w2, pc2, Transfer(true)).1, Rename(true, env.inode, env.mtime));
            var (w4, pc4) := Pull(w3, pc3, Stamp);
            w4.slot == r.slot && pc4.response == r.response && r.installed)
        && (!env.fetched ==> w2.slot == r.slot && Pull(w2, pc2, Transfer(false)).1.response == r.response)
  {
    ReadThroughDecides(w, Head(w.s3, env.reached));
  }

  /** An uninterrupted download keeps the cached file exactly when it is authoritative, S3 cannot be
      asked, the record is current, or nothing could be unlinked or fetched. It does not ask whether the
      metadata still covers the file. */
  lemma DownloadKeepsFileIff(s: Slot, head: HeadResult, env: DownloadEnv, now: Time)
    requires s.file.Some? && !LocalAuthoritative(s)
    requires head.Found? && env.fetched ==> s.file.value != File(env.inode, env.mtime, head.obj.data)
    ensures var r := HandleDownload(s, head, if head.Found? then Some(head.obj) else None, env, now);
      r.slot.file == s.file <==>
        match head
        case Unreachable => true
        case NotFound => !env.unlinked
        case Found(o) => !IsStale(s.meta, o) || (!env.unlinked && !env.fetched)
  {
  }

  // ---- HEAD and transfer are two requests ----

  /** A download that was announced a and transferred b leaves an entry with which a later one, of the
      object o, is right if and only if o has another ETag than a, or a and b have the same bytes. */
  lemma LaterDownloadIsRightIff(a: Object, b: Object, o: Object, first: DownloadEnv, second: DownloadEnv, now: Time,
      later: Time)
    requires a.etag != "" && o.etag != "" && (o.etag == a.etag ==> o.data == a.data)
    requires first.fetched && second.fetched && second.reached
    ensures var entry := HandleDownload(EMPTY, Found(a), Some(b), first, now).slot;
      HandleDownload(entry, Found(o), Some(o), second, later).response == Response.Served(o.data)
      <==> o.etag != a.etag || a.data == b.data
  {
  }

  /** The same in the machine: whatever happened in between, as long as the entry is as stamped. */
  lemma StampedEntryIsRightIff(w: World, pc: DownPc, later: World, o: Object)
    requires pc.Renamed? && pc.seen.head.Found? && w.slot.file == Some(pc.file) && pc.file.data == pc.body.data
    requires later.slot == Pull(w, pc, Stamp).0.slot && later.s3 == Some(o)
    requires o.etag != "" && (o.etag == pc.seen.head.obj.etag ==> o.data == pc.seen.head.obj.data)
    ensures var pc' := ReadThrough(later, Found(o)).1;
      && (pc'.Answered? || (pc'.Acting? && pc'.what.Refetch?))
      && (pc'.Answered? ==>
          (pc'.response == Response.Served(o.data) <==> pc.seen.head.obj.data == pc.body.data))
      && (pc'.Answered? <==> o.etag == pc.seen.head.obj.etag)
  {
  }

  /** An entry is stamped rightly exactly if the file at the path, should the record fit it, has the
      bytes HEAD announced. */
  lemma StampKeepsEtagIff(w: World, pc: DownPc)
    requires WorldInv(w) && EtagInv(w) && DownOk(w, pc) && pc.Renamed? && pc.seen.head.Found?
    ensures EtagInv(Pull(w, pc, Stamp).0) <==>
      (w.slot.file.Some? && |w.slot.file.value.data| == |pc.body.data| ==>
        w.slot.file.value.data == pc.seen.head.obj.data)
  {
  }

  /** The assumption about PVE between rename and metadata is needed exactly here: whatever file it put at the
      path then is recorded as synced, bytes S3 never saw, if and only if it has the downloaded size. */
  lemma StampHidesWriteIff(w: World, pc: DownPc, f: File)
    requires pc.Renamed? && w.slot.file == Some(f) && f.mtime <= w.now
    ensures Covered(Pull(w, pc, Stamp).0.slot) <==> |f.data| == |pc.body.data|
  {
  }

  /** And so for a file found in sync, before it is recorded. */
  lemma BackfillHidesWriteIff(w: World, pc: DownPc, f: File, unlinked: bool)
    requires pc.Acting? && pc.what.Backfill? && w.slot.file == Some(f) && f.mtime <= w.now
    ensures Covered(Pull(w, pc, Act(unlinked)).0.slot) <==> |f.data| == |Announced(pc.seen.head).data|
  {
  }

  /** So the bytes served can be the wrong ones for good: the object changes during a download, and back. */
  lemma ChangeDuringDownloadServesWrongBytes(a: Object, b: Object, env: DownloadEnv, now: Time, later: Time)
    requires env.fetched && a.etag != "" && a.data != b.data
    ensures var first := HandleDownload(EMPTY, Found(a), Some(b), env, now);
      var second := HandleDownload(first.slot, Found(a), Some(a), env, later);
      second.response == Response.Served(b.data) && second.slot == first.slot
  {
  }
}
