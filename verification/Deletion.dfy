/** Never resurrect a deleted object: what can bring an absent key back, and what cannot. */
module Deletion {
  import opened Metadata
  import opened Protocol
  import opened Coordination
  import opened NoLoss
  import opened Runs

  /** What is asked to create the key: PVE, another node, and the handlers that create objects. */
  predicate Creates(step: Step) {
    match step
    case Env(e) => e.PveWrite? || e.RemotePut?
    case Daemon(d) => d.Store? || d.ResyncFile?
    case _ => false
  }

  predicate NoneCreates(steps: seq<Step>) { forall i :: 0 <= i < |steps| ==> !Creates(steps[i]) }

  /** No file, and no object. */
  predicate Absent(w: World) { w.slot.file.None? && w.s3.None? }

  /** An upload, with an open file, that has yet to put it. */
  predicate WillPut(pc: Pc) {
    match pc
    case Publishing(_) => true
    case ReadingMeta(_) => true
    case Heading(_) => true
    case Reconciling(_, verdict, _) => verdict.LocalMissing? || verdict.LocalNewer?
    case Restarting(_) => true
    case Putting(_) => true
    case _ => false
  }

  /** An upload that may put an absent key back: its PutObject is under way, or ahead and not canceled. */
  predicate CanPut(s: State, g: nat) {
    At(s, g) &&
    (s.c.threads[g].pc == InPut(Opened(s.c.threads[g].pc), None)
     || (WillPut(s.c.threads[g].pc) && !s.c.sh.states[g].canceled))
  }

  /** The stat an upload goes by. */
  function Opened(pc: Pc): FileInfo {
    match pc
    case Publishing(info) => info
    case ReadingMeta(info) => info
    case Heading(info) => info
    case Reconciling(info, _, _) => info
    case Restarting(info) => info
    case Putting(info) => info
    case InPut(info, _) => info
    case Checking(info, _) => info
    case Marking(info, _) => info
    case _ => FileInfo(0, 0, 0)
  }

  /** A download with its transfer answered and the rename still ahead. */
  predicate CanInstall(s: State, n: nat) { n in s.downs && s.downs[n].Fetched? }

  ghost predicate InFlight(s: State) { (exists g: nat :: CanPut(s, g)) || (exists n: nat :: CanInstall(s, n)) }

  // ---- nothing in flight: it stays absent ----

  lemma TriggerPutsNothing(s: State, g: nat, delivered: bool)
    requires CoordInv(s.c) && g !in s.c.threads && (s.c.sh.upload.Some? ==> s.c.sh.upload.value in s.c.sh.states)
    requires forall h: nat :: !CanPut(s, h)
    ensures forall h: nat :: !CanPut(Triggered(s, g, delivered), h)
    ensures Triggered(s, g, delivered).w.slot == s.w.slot && Triggered(s, g, delivered).w.s3 == s.w.s3
  {
    var s' := Triggered(s, g, delivered);
    forall h: nat ensures !CanPut(s', h) {
      assert !CanPut(s, h);
    }
  }

  lemma BlockPutsNothing(s: State, b: nat)
    requires CoordInv(s.c) && (s.c.sh.upload.Some? ==> s.c.sh.upload.value in s.c.sh.states)
    requires forall h: nat :: !CanPut(s, h)
    ensures forall h: nat :: !CanPut(Blocked(s, b), h)
  {
    var s' := Blocked(s, b);
    forall h: nat ensures !CanPut(s', h) {
      assert !CanPut(s, h);
    }
  }

  lemma HandlerPutsNothing(s: State, b: nat, k: HandlerStep)
    requires CoordInv(s.c) && Absent(s.w) && Enabled(s, Handler(b, k)) && forall h: nat :: !CanPut(s, h)
    ensures Absent(Apply(s, Handler(b, k)).w) && forall h: nat :: !CanPut(Apply(s, Handler(b, k)), h)
  {
    if k.Block? {
      BlockPutsNothing(s, b);
    } else {
      var s' := Apply(s, Handler(b, k));
      assert s'.c.threads == s.c.threads && s'.c.sh.states == s.c.sh.states;
      forall h: nat ensures !CanPut(s', h) {
        assert !CanPut(s, h);
      }
    }
  }

  /** A move within an attempt never comes to a PutObject that was not ahead. */
  lemma MovePutsNothing(w: World, t: Thread, u: UploadStep)
    requires Absent(w) && MoveEnabled(w, t.pc, u) && IsMove(u) && !Peeks(u)
    requires !(t.pc.InPut? && t.pc.landed.None?)
    ensures var (w', t') := Move(w, t, u);
      Absent(w') && !(t'.pc.InPut? && t'.pc.landed.None?) && (WillPut(t'.pc) ==> WillPut(t.pc))
  {
  }

  lemma UploadPutsNothing(s: State, g: nat, u: UploadStep)
    requires CoordInv(s.c) && Absent(s.w) && Enabled(s, Upload(g, u)) && !u.Trigger?
    requires forall h: nat :: !CanPut(s, h)
    ensures Absent(Apply(s, Upload(g, u)).w) && forall h: nat :: !CanPut(Apply(s, Upload(g, u)), h)
  {
    var s' := Apply(s, Upload(g, u));
    assert !CanPut(s, g);
    if IsMove(u) && !Peeks(u) {
      MovePutsNothing(s.w, s.c.threads[g], u);
      UploadIsMove(s, g, u);
      MoveLeavesRest(s, g, u);
    } else {
      UploadKeepsCancellations(s, g, u);
      LockedPutsNothing(s, g, u);
    }
    forall h: nat ensures !CanPut(s', h) {
      assert !CanPut(s, h);
    }
  }

  /** The steps that look at shared variables: only an uncanceled upload goes on towards its put. */
  lemma LockedPutsNothing(s: State, g: nat, u: UploadStep)
    requires CoordInv(s.c) && Enabled(s, Upload(g, u)) && !CanPut(s, g)
    requires u.Start? || u.Publish? || u.Finish? || Peeks(u)
    ensures !CanPut(Apply(s, Upload(g, u)), g)
  {
    if u.Finish? { EndPutsNothing(s, g); }
  }

  lemma EndPutsNothing(s: State, g: nat)
    requires At(s, g) && s.c.threads[g].pc.Finishing?
    ensures !CanPut(Ended(s, g), g)
  {
  }

  lemma UploadKeepsCancellations(s: State, g: nat, u: UploadStep)
    requires Enabled(s, Upload(g, u)) && (u.Start? || u.Publish? || u.Finish? || Peeks(u))
    ensures Apply(s, Upload(g, u)).w == s.w
    ensures var c' := Apply(s, Upload(g, u)).c;
      && g in c'.threads && c'.threads == s.c.threads[g := c'.threads[g]]
      && c'.sh.states.Keys == s.c.sh.states.Keys
      && forall h :: h in s.c.sh.states ==> c'.sh.states[h].canceled == s.c.sh.states[h].canceled
  {
  }

  lemma DownInstallsNothing(s: State, n: nat, p: DownStep)
    requires Absent(s.w) && Enabled(s, Down(n, p)) && forall m: nat :: !CanInstall(s, m)
    ensures var s' := Apply(s, Down(n, p)); Absent(s'.w) && s'.c == s.c && forall m: nat :: !CanInstall(s', m)
  {
    var s' := Apply(s, Down(n, p));
    assert !CanInstall(s, n);
    forall m: nat ensures !CanInstall(s', m) {
      assert !CanInstall(s, m);
    }
  }

  lemma DaemonCreatesNothing(s: State, d: DaemonStep)
    requires Absent(s.w) && DaemonEnabled(s, d) && !Creates(Daemon(d))
    ensures var s' := ApplyDaemon(s, d);
      && Absent(s'.w) && s'.downs == s.downs
      && s'.c.threads == s.c.threads && s'.c.sh.states == s.c.sh.states
  {
  }

  ghost predicate Sealed(s: State) {
    && CoordInv(s.c) && Absent(s.w)
    && (forall g: nat :: !CanPut(s, g))
    && (forall n: nat :: !CanInstall(s, n))
  }

  lemma StepKeepsSealed(s: State, step: Step)
    requires Sealed(s) && Enabled(s, step) && !Creates(step)
    ensures Sealed(Apply(s, step))
  {
    StepKeepsCoord(s, step);
    var s' := Apply(s, step);
    match step {
      case Upload(g, u) =>
        if u.Trigger? { TriggerPutsNothing(s, g, u.delivered); } else { UploadPutsNothing(s, g, u); }
        UploadKeepsDowns(s, g, u);
        assert forall n: nat :: CanInstall(s', n) <==> CanInstall(s, n);
      case Handler(b, k) =>
        HandlerPutsNothing(s, b, k);
        HandlerKeepsDowns(s, b, k);
        assert forall n: nat :: CanInstall(s', n) <==> CanInstall(s, n);
      case Down(n, p) =>
        DownInstallsNothing(s, n, p);
        assert forall g: nat :: CanPut(s', g) <==> CanPut(s, g);
      case Daemon(d) =>
        DaemonCreatesNothing(s, d);
        assert forall n: nat :: CanInstall(s', n) <==> CanInstall(s, n);
        assert forall g: nat :: CanPut(s', g) <==> CanPut(s, g);
      case Env(e) => EnvKeepsSealed(s, e);
    }
  }

  lemma EnvKeepsSealed(s: State, e: EnvStep)
    requires Sealed(s) && EnvEnabled(s, e) && !Creates(Env(e))
    ensures Sealed(ApplyEnv(s, e))
  {
    var s' := ApplyEnv(s, e);
    StepKeepsCoord(s, Env(e));
    assert forall n: nat :: CanInstall(s', n) ==> CanInstall(s, n);
    assert forall g: nat :: CanPut(s', g) ==> CanPut(s, g);
  }

  lemma {:induction false} RunKeepsSealed(s: State, steps: seq<Step>)
    requires Sealed(s) && Valid(s, steps) && NoneCreates(steps)
    ensures Sealed(Exec(s, steps))
    decreases |steps|
  {
    if steps != [] {
      StepKeepsSealed(s, steps[0]);
      RunKeepsSealed(Apply(s, steps[0]), steps[1..]);
    }
  }

  // ---- something in flight: it can come back ----

  /** A run without a creating step that ends with the object on S3. */
  ghost predicate Returns(s: State, steps: seq<Step>) {
    Valid(s, steps) && NoneCreates(steps) && Exec(s, steps).w.s3.Some?
  }

  ghost predicate CanReturn(s: State) { exists steps :: Returns(s, steps) }

  lemma ReturnsLater(s: State, step: Step, rest: seq<Step>)
    requires Enabled(s, step) && !Creates(step) && Returns(Apply(s, step), rest)
    ensures Returns(s, [step] + rest)
  {
    Prepend(s, step, rest);
  }

  /** An upload that nobody canceled, with the object it may put. */
  ghost predicate Ready(s: State, g: nat, o: Object) {
    && At(s, g) && s.w.s3.None?
    && !s.c.sh.states[g].canceled && s.c.sh.states[g].ended == {}
    && FreshObject(s.w, o) && CleanRead(s.w, Opened(s.c.threads[g].pc), o)
  }

  lemma LandReturns(s: State, g: nat, o: Object) returns (steps: seq<Step>)
    requires At(s, g) && s.c.threads[g].pc.InPut? && s.c.threads[g].pc.landed.None?
    requires FreshObject(s.w, o) && CleanRead(s.w, s.c.threads[g].pc.info, o)
    ensures Returns(s, steps)
  {
    var land := Upload(g, Land(o));
    steps := [land];
    assert [land][1..] == [];
    assert Apply(s, land).w.s3 == Some(o);
  }

  lemma PuttingReturns(s: State, g: nat, o: Object) returns (steps: seq<Step>)
    requires Ready(s, g, o) && s.c.threads[g].pc.Putting?
    ensures Returns(s, steps)
  {
    var rest := LandReturns(Apply(s, Upload(g, StartPut)), g, o);
    ReturnsLater(s, Upload(g, StartPut), rest);
    steps := [Upload(g, StartPut)] + rest;
  }

  lemma RestartingReturns(s: State, g: nat, o: Object) returns (steps: seq<Step>)
    requires Ready(s, g, o) && s.c.threads[g].pc.Restarting?
    ensures Returns(s, steps)
  {
    var rest := PuttingReturns(Apply(s, Upload(g, Restart)), g, o);
    ReturnsLater(s, Upload(g, Restart), rest);
    steps := [Upload(g, Restart)] + rest;
  }

  lemma ReconcilingReturns(s: State, g: nat, o: Object) returns (steps: seq<Step>)
    requires Ready(s, g, o) && s.c.threads[g].pc.Reconciling?
    requires s.c.threads[g].pc.verdict.LocalMissing? || s.c.threads[g].pc.verdict.LocalNewer?
    ensures Returns(s, steps)
  {
    var rest := RestartingReturns(Apply(s, Upload(g, Reconcile)), g, o);
    ReturnsLater(s, Upload(g, Reconcile), rest);
    steps := [Upload(g, Reconcile)] + rest;
  }

  lemma HeadingReturns(s: State, g: nat, o: Object) returns (steps: seq<Step>)
    requires Ready(s, g, o) && s.c.threads[g].pc.Heading?
    ensures Returns(s, steps)
  {
    var rest := ReconcilingReturns(Apply(s, Upload(g, HeadReturns(true))), g, o);
    ReturnsLater(s, Upload(g, HeadReturns(true)), rest);
    steps := [Upload(g, HeadReturns(true))] + rest;
  }

  lemma ReadingReturns(s: State, g: nat, o: Object) returns (steps: seq<Step>)
    requires Ready(s, g, o) && s.c.threads[g].pc.ReadingMeta? && !Covers(s.w.slot.meta, s.c.threads[g].pc.info)
    ensures Returns(s, steps)
  {
    var s' := Apply(s, Upload(g, ReadMeta));
    var rest;
    if s.w.slot.meta.None? { rest := HeadingReturns(s', g, o); } else { rest := PuttingReturns(s', g, o); }
    ReturnsLater(s, Upload(g, ReadMeta), rest);
    steps := [Upload(g, ReadMeta)] + rest;
  }

  lemma PublishingReturns(s: State, g: nat, o: Object) returns (steps: seq<Step>)
    requires Ready(s, g, o) && s.c.threads[g].pc.Publishing? && !Covers(s.w.slot.meta, s.c.threads[g].pc.info)
    ensures Returns(s, steps)
  {
    var rest := ReadingReturns(Apply(s, Upload(g, Publish)), g, o);
    ReturnsLater(s, Upload(g, Publish), rest);
    steps := [Upload(g, Publish)] + rest;
  }

  lemma InFlightPutReturns(s: State, g: nat) returns (steps: seq<Step>)
    requires Inv(s) && Absent(s.w) && NoneCovered(s) && CanPut(s, g)
    ensures Returns(s, steps)
  {
    var pc := s.c.threads[g].pc;
    assert ThreadOk(s.w, s.c.threads[g]);
    var o := NewObject(s.w, s.w.h.versions[InfoVer(Opened(pc))]);
    match pc {
      case Publishing(_) => steps := PublishingReturns(s, g, o);
      case ReadingMeta(_) => steps := ReadingReturns(s, g, o);
      case Heading(_) => steps := HeadingReturns(s, g, o);
      case Reconciling(_, _, _) => steps := ReconcilingReturns(s, g, o);
      case Restarting(_) => steps := RestartingReturns(s, g, o);
      case Putting(_) => steps := PuttingReturns(s, g, o);
      case InPut(_, _) => steps := LandReturns(s, g, o);
    }
  }

  lemma OpeningReturns(s: State, g: nat, f: File, o: Object) returns (steps: seq<Step>)
    requires ReadyToOpen(s, g, f, o) && s.c.threads[g].pc.Opening?
    ensures Returns(s, steps)
  {
    var rest := PublishingReturns(Apply(s, Upload(g, Open(true))), g, o);
    ReturnsLater(s, Upload(g, Open(true)), rest);
    steps := [Upload(g, Open(true))] + rest;
  }

  lemma BeginReturns(s: State, g: nat, f: File, o: Object) returns (steps: seq<Step>)
    requires ReadyToOpen(s, g, f, o) && s.c.threads[g].pc.Begin?
    ensures Returns(s, steps)
  {
    var rest := OpeningReturns(Apply(s, Upload(g, Start)), g, f, o);
    ReturnsLater(s, Upload(g, Start), rest);
    steps := [Upload(g, Start)] + rest;
  }

  /** The same, before it opens the file. */
  ghost predicate ReadyToOpen(s: State, g: nat, f: File, o: Object) {
    && At(s, g) && s.w.s3.None? && s.w.slot.file == Some(f) && !Covered(s.w.slot)
    && !s.c.sh.states[g].canceled && s.c.sh.states[g].ended == {}
    && FreshObject(s.w, o) && CleanRead(s.w, Stat(f), o)
  }

  /** A daemon starting on a file that its metadata does not cover, and S3 does not have, uploads it. */
  lemma OrphanReturns(s: State, f: File) returns (steps: seq<Step>)
    requires WorldInv(s.w) && s.c == START && s.w.s3.None? && s.w.slot.file == Some(f) && !Covered(s.w.slot)
    ensures Returns(s, steps)
  {
    var o := NewObject(s.w, f.data);
    var rest := BeginReturns(Apply(s, Upload(0, Trigger(true))), 0, f, o);
    ReturnsLater(s, Upload(0, Trigger(true)), rest);
    steps := [Upload(0, Trigger(true))] + rest;
  }

  /** The rename, then a crash before the metadata is written: the next daemon takes the file for one
      that S3 never had. */
  lemma InFlightInstallReturns(s: State, n: nat) returns (steps: seq<Step>)
    requires Inv(s) && Absent(s.w) && CanInstall(s, n)
    ensures Returns(s, steps)
  {
    var tick := Env(Tick(1));
    StepKeepsInv(s, tick);
    var rest := RenameReturns(Apply(s, tick), n);
    ReturnsLater(s, tick, rest);
    steps := [tick] + rest;
  }

  lemma RenameReturns(s: State, n: nat) returns (steps: seq<Step>)
    requires Inv(s) && Absent(s.w) && CanInstall(s, n)
    requires s.w.slot.meta.Some? ==> s.w.slot.meta.value.cachedAt < s.w.now
    ensures Returns(s, steps)
  {
    var f := NewFile(s.w, s.downs[n].body.data);
    var rename := Down(n, Rename(true, f.inode, f.mtime));
    StepKeepsInv(s, rename);
    var s1 := Apply(s, rename);
    assert s1.w.slot == s.w.slot.(file := Some(f));
    StepKeepsInv(s1, Env(Crash));
    var rest := OrphanReturns(Apply(s1, Env(Crash)), f);
    ReturnsLater(s1, Env(Crash), rest);
    ReturnsLater(s, rename, [Env(Crash)] + rest);
    steps := [rename] + ([Env(Crash)] + rest);
  }

  // ---- exactly when ----

  /** Metadata can outlive its file; no upload in flight will mistake what is left here for its own. */
  ghost predicate NoneCovered(s: State) {
    forall g :: At(s, g) && (s.c.threads[g].pc.Publishing? || s.c.threads[g].pc.ReadingMeta?) ==>
      !Covers(s.w.slot.meta, s.c.threads[g].pc.info)
  }

  /** A key with neither file nor object can come back, unless someone creates it anew, if and only if an
      upload that may still put it, or a download that may still install it, is in flight; and only if,
      whatever metadata is left. */
  lemma ReturnsIff(s: State)
    requires Inv(s) && Absent(s.w)
    ensures CanReturn(s) ==> InFlight(s)
    ensures NoneCovered(s) && InFlight(s) ==> CanReturn(s)
  {
    if n: nat :| CanInstall(s, n) {
      var steps := InFlightInstallReturns(s, n);
    } else if g: nat :| CanPut(s, g) {
      if NoneCovered(s) { var steps := InFlightPutReturns(s, g); }
    } else if steps :| Returns(s, steps) {
      RunKeepsSealed(s, steps);
    }
  }

  // ---- deletes ----

  /** What a handler whose DeleteObject took effect relies on. */
  predicate Landed(pc: BlockPc, epoch: nat) {
    pc == Deleting(Some(epoch)) || pc == Deleted(epoch)
  }

  predicate EpochKnown(pc: BlockPc, epoch: nat) {
    match pc
    case Deleting(landed) => landed.Some? ==> landed.value <= epoch
    case Deleted(e) => e <= epoch
    case _ => true
  }

  /** Nothing has created the object since a handler's DeleteObject took effect: S3 has none. */
  ghost predicate DeleteInv(s: State) {
    forall b :: b in s.c.blockers ==>
      EpochKnown(s.c.blockers[b], s.epoch) && (Landed(s.c.blockers[b], s.epoch) ==> s.w.s3.None?)
  }

  lemma UploadKeepsDelete(s: State, g: nat, u: UploadStep)
    requires CoordInv(s.c) && DeleteInv(s) && Enabled(s, Upload(g, u))
    ensures DeleteInv(Apply(s, Upload(g, u)))
  {
    if !u.Trigger? {
      assert Active(s.c, g);
      UploadIsMove(s, g, u);
      if !u.Land? { OnlyLandPuts(s.w, s.c.threads[g], u); }
    }
  }

  lemma OnlyLandPuts(w: World, t: Thread, u: UploadStep)
    requires MoveEnabled(w, t.pc, u) && !u.Land?
    ensures Move(w, t, u).0.s3 == w.s3
  {
  }

  lemma StepKeepsDelete(s: State, step: Step)
    requires CoordInv(s.c) && DeleteInv(s) && Enabled(s, step)
    ensures DeleteInv(Apply(s, step))
  {
    match step {
      case Env(e) => EnvKeepsDelete(s, e);
      case Daemon(d) => DaemonKeepsDelete(s, d);
      case Upload(g, u) => UploadKeepsDelete(s, g, u);
      case Handler(b, k) => HandlerKeepsDelete(s, b, k);
      case Down(n, p) => DownKeepsDelete(s, n, p);
    }
  }

  lemma EnvKeepsDelete(s: State, e: EnvStep)
    requires DeleteInv(s) && EnvEnabled(s, e)
    ensures DeleteInv(ApplyEnv(s, e))
  {
    assert e.RemotePut? ==> ApplyEnv(s, e).epoch > s.epoch;
  }

  lemma DownKeepsDelete(s: State, n: nat, p: DownStep)
    requires DeleteInv(s) && Enabled(s, Down(n, p))
    ensures DeleteInv(Apply(s, Down(n, p)))
  {
    if !p.Ask? { PullKeepsObject(s.w, s.downs[n], p); }
  }

  lemma DaemonKeepsDelete(s: State, d: DaemonStep)
    requires DeleteInv(s) && DaemonEnabled(s, d)
    ensures DeleteInv(ApplyDaemon(s, d))
  {
    DaemonLeavesCoord(s, d);
    assert d.Store? ==> ApplyDaemon(s, d).epoch > s.epoch;
  }

  lemma HandlerKeepsDelete(s: State, b: nat, k: HandlerStep)
    requires DeleteInv(s) && Enabled(s, Handler(b, k))
    ensures DeleteInv(Apply(s, Handler(b, k)))
  {
    if k.Block? { assert Blocked(s, b).w == s.w; }
  }

  lemma PullKeepsObject(w: World, pc: DownPc, p: DownStep)
    requires PullEnabled(w, pc, p)
    ensures Pull(w, pc, p).0.s3 == w.s3
  {
  }

  lemma {:induction false} RunKeepsDelete(s: State, steps: seq<Step>)
    requires Inv(s) && DeleteInv(s) && Valid(s, steps)
    ensures Inv(Exec(s, steps)) && DeleteInv(Exec(s, steps))
    decreases |steps|
  {
    if steps != [] {
      StepKeepsInv(s, steps[0]);
      StepKeepsDelete(s, steps[0]);
      RunKeepsDelete(Apply(s, steps[0]), steps[1..]);
    }
  }

  /** handleDelete at its end: S3 has confirmed the deletion, nothing has created the object since, and
      the local copy goes (there was none, or it is unlinked). */
  predicate DeleteEnds(s: State, b: nat, unlinked: bool) {
    && b in s.c.blockers && s.c.blockers[b] == Deleted(s.epoch)
    && (unlinked || s.w.slot.file.None?)
  }

  lemma DeletedIsEmpty(s: State, b: nat, unlinked: bool)
    requires Inv(s) && DeleteInv(s) && DeleteEnds(s, b, unlinked)
    ensures var s' := Apply(s, Handler(b, RemoveLocal(unlinked)));
      && Inv(s') && s'.w.slot == EMPTY && s'.w.s3.None? && s'.downs == s.downs
      && forall g: nat :: !CanPut(s', g)
  {
    StepKeepsInv(s, Handler(b, RemoveLocal(unlinked)));
    var s' := Apply(s, Handler(b, RemoveLocal(unlinked)));
    forall g: nat ensures !CanPut(s', g) {
      assert !Active(s.c, g);
    }
  }

  /** Never resurrect: if no transferred download is waiting for its rename when handleDelete ends, the key
      stays off S3 and out of the cache through any run of uploads, retries, triggers, downloads,
      scans, other deletes and crashes, until something creates it anew. */
  lemma NoResurrection(s: State, before: seq<Step>, b: nat, unlinked: bool, after: seq<Step>)
    requires Init(s) && Valid(s, before) && DeleteEnds(Exec(s, before), b, unlinked)
    requires forall n: nat :: !CanInstall(Exec(s, before), n)
    requires Valid(Apply(Exec(s, before), Handler(b, RemoveLocal(unlinked))), after) && NoneCreates(after)
    ensures Absent(Exec(Apply(Exec(s, before), Handler(b, RemoveLocal(unlinked))), after).w)
  {
    RunKeepsDelete(s, before);
    var t := Exec(s, before);
    DeletedIsEmpty(t, b, unlinked);
    var t' := Apply(t, Handler(b, RemoveLocal(unlinked)));
    assert forall n: nat :: CanInstall(t', n) <==> CanInstall(t, n);
    RunKeepsSealed(t', after);
  }

  /** Exactly: a deleted object can come back if and only if a download of it, answered by S3 before the
      deletion, is in flight: it takes no block, and does not look again before its rename. */
  lemma DeletedReturnsIff(s: State, before: seq<Step>, b: nat, unlinked: bool)
    requires Init(s) && Valid(s, before) && DeleteEnds(Exec(s, before), b, unlinked)
    ensures CanReturn(Apply(Exec(s, before), Handler(b, RemoveLocal(unlinked))))
      <==> exists n: nat :: CanInstall(Exec(s, before), n)
  {
    RunKeepsDelete(s, before);
    var t := Exec(s, before);
    DeletedIsEmpty(t, b, unlinked);
    var t' := Apply(t, Handler(b, RemoveLocal(unlinked)));
    assert forall n: nat :: CanInstall(t', n) <==> CanInstall(t, n);
    ReturnsIff(t');
  }

  // ---- purges ----

  /** An object deleted by another node: once a download has purged the cached file, the key comes back
      (unless someone creates it) if and only if an upload that opened the file before, or another
      transferred download, is in flight. The purge takes no block. */
  lemma PurgedReturnsIff(s: State, before: seq<Step>, n: nat)
    requires Init(s) && Valid(s, before)
    requires var t := Exec(s, before); n in t.downs && t.downs[n].Acting? && t.downs[n].what.Purge? && t.w.s3.None?
    ensures CanReturn(Apply(Exec(s, before), Down(n, Act(true)))) <==> InFlight(Exec(s, before))
  {
    RunKeepsDelete(s, before);
    var t := Exec(s, before);
    StepKeepsInv(t, Down(n, Act(true)));
    var t' := Apply(t, Down(n, Act(true)));
    assert forall g: nat :: CanPut(t', g) <==> CanPut(t, g);
    assert forall m: nat :: CanInstall(t', m) <==> CanInstall(t, m);
    ReturnsIff(t');
  }
}
