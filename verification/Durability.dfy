/** The durability theorems: every run, any interleaving, crashes included. */
module Durability {
  import opened Metadata
  import opened Download
  import opened Resync
  import opened Protocol
  import opened NoLoss
  import opened Runs

  lemma {:induction false} RunKeepsInv(s: State, steps: seq<Step>)
    requires Inv(s) && Valid(s, steps)
    ensures Inv(Exec(s, steps)) && Grows(s.w, Exec(s, steps).w)
    decreases |steps|
  {
    if steps != [] {
      var s' := Apply(s, steps[0]);
      StepKeepsInv(s, steps[0]);
      RunKeepsInv(s', steps[1..]);
      GrowsTransitive(s.w, s'.w, Exec(s, steps).w);
    }
  }

  lemma ReachableInv(s: State, steps: seq<Step>)
    requires Init(s) && Valid(s, steps)
    ensures Inv(Exec(s, steps))
  {
    assert Inv(s);
    RunKeepsInv(s, steps);
  }

  /** In every reachable state, metadata that calls a file in sync is right to: the file's bytes
      were on S3, or S3 held an object not older than it, or a delete was asked to remove it. */
  lemma CoveredNeverLies(s: State, steps: seq<Step>)
    requires Init(s) && Valid(s, steps)
    ensures CoveredIsAccounted(Exec(s, steps).w)
  {
    ReachableInv(s, steps);
  }

  /** A crash at any point of any run loses no file: the scan at the next start queues every file
      that is not accounted for, and leaves it protected. */
  lemma RestartQueuesUnaccounted(s: State, steps: seq<Step>)
    requires Init(s) && Valid(s, steps)
    ensures var w := Restarted(Exec(s, steps)).w;
      var was := Exec(s, steps).w;
      && w.slot.file == was.slot.file
      && (w.slot.file.Some? && !Accounted(was, Ver(w.slot.file.value)) ==> w.queued && LocalAuthoritative(w.slot))
  {
    ReachableInv(s, steps);
  }

  // ---- protected files survive ----

  /** Steps that do not act on the key on someone's explicit request: neither PVE nor a delete,
      rename, copy or upload of it. */
  predicate Preserving(step: Step) {
    match step
    case Env(e) => !e.PveWrite? && !e.PveUnlink?
    case Daemon(d) => !d.Store? && !d.MoveAway?
    case Upload(_, _) => true
    case Handler(_, k) => !k.RemoveLocal?
    case Down(_, _) => true
  }

  predicate AllPreserving(steps: seq<Step>) { forall i :: 0 <= i < |steps| ==> Preserving(steps[i]) }

  /** f is at the path, byte for byte, and marked pending. */
  predicate Pending(w: World, f: File) {
    w.slot.file == Some(f) && w.slot.meta.Some? && w.slot.meta.value.pending
  }

  /** f is at the path, byte for byte, and pending or without metadata. */
  predicate Guarded(w: World, f: File) { w.slot.file == Some(f) && LocalAuthoritative(w.slot) }

  /** A download that will take the file away, or record it as synced, or at most compare ETags first:
      it does not ask again whether the file is pending. */
  predicate Committed(pc: DownPc) {
    pc.Comparing? || pc.Acting? || pc.Fetching? || pc.Fetched? || pc.Renamed?
  }

  /** The same for the file f, if it has missed the mark on f and finds f no newer than the object. */
  predicate Condemns(pc: DownPc, f: File) {
    Committed(pc) || (pc.Statting? && pc.head.Found? && f.mtime <= pc.head.obj.lastModified)
  }

  /** No download is committed, and no eviction has picked the file. */
  predicate NoneCommitted(s: State) { s.condemned == 0 && forall n :: n in s.downs ==> !Committed(s.downs[n]) }

  predicate NoneCondemns(s: State, f: File) {
    s.condemned == 0 && forall n :: n in s.downs ==> !Condemns(s.downs[n], f)
  }

  /** An upload's MarkSynced accepts the file, or a resync records it as synced. */
  predicate Accepts(s: State, step: Step)
    requires Enabled(s, step)
  {
    match step
    case Upload(g, Mark) => var t := s.c.threads[g]; StillUploaded(s.w.slot, t.pc.info, Some(t.started))
    case Upload(g, Reconcile) =>
      var t := s.c.threads[g];
      (t.pc.verdict.LocalInSync? || t.pc.verdict.LocalOlder?) && StillUploaded(s.w.slot, t.pc.info, Some(t.started))
    case Daemon(ResyncFile(re)) =>
      var r := ResyncOne(s.w.slot, Head(s.w.s3, re.reached), re, s.w.now);
      r.outcome.Uploaded? || (r.outcome.Same? && s.w.slot.meta.None?)
    case _ => false
  }

  /** A download that found no metadata finds the file no newer than the object. */
  predicate Judges(s: State, step: Step)
    requires Enabled(s, step)
  {
    && step.Down? && step.p.Judge? && s.w.slot.file.Some?
    && var head := s.downs[step.n].head;
       head.Found? && s.w.slot.file.value.mtime <= head.obj.lastModified
  }

  predicate AcceptedIn(s: State, steps: seq<Step>)
    requires Valid(s, steps)
    decreases |steps|
  {
    steps != [] && (Accepts(s, steps[0]) || AcceptedIn(Apply(s, steps[0]), steps[1..]))
  }

  predicate SettledIn(s: State, steps: seq<Step>)
    requires Valid(s, steps)
    decreases |steps|
  {
    steps != [] && (Accepts(s, steps[0]) || Judges(s, steps[0]) || SettledIn(Apply(s, steps[0]), steps[1..]))
  }

  /** What acceptance is worth: the file stays, and is accounted for; if an upload marked it, with its
      bytes on S3. */
  lemma AcceptedIsAccounted(s: State, step: Step, f: File)
    requires Inv(s) && Enabled(s, step) && Accepts(s, step) && s.w.slot.file == Some(f)
    ensures var w := Apply(s, step).w;
      && w.slot.file == Some(f) && Accounted(w, Ver(f))
      && (step.Upload? && step.u.Mark? ==> f.data in w.h.stored)
  {
    match step {
      case Upload(g, u) =>
        UploadIsMove(s, g, u);
        AcceptedMoveAccounts(s.w, s.c.threads[g], u, f);
      case Daemon(d) => AcceptedResyncAccounts(s.w, d.re, f);
    }
  }

  lemma AcceptedMoveAccounts(w: World, t: Thread, u: UploadStep, f: File)
    requires WorldInv(w) && ThreadOk(w, t) && MoveEnabled(w, t.pc, u) && w.slot.file == Some(f)
    requires u.Mark? || (u.Reconcile? && (t.pc.verdict.LocalInSync? || t.pc.verdict.LocalOlder?))
    requires StillUploaded(w.slot, t.pc.info, Some(t.started))
    ensures var w' := Move(w, t, u).0;
      w'.slot.file == Some(f) && Accounted(w', Ver(f)) && (u.Mark? ==> f.data in w'.h.stored)
  {
    if u.Mark? { AcceptedUploadIsCurrent(w, t.pc.info, Some(t.started), t.pc.obj); }
  }

  lemma AcceptedResyncAccounts(w: World, re: ResyncEnv, f: File)
    requires WorldInv(w) && w.slot.file == Some(f)
    requires var r := ResyncOne(w.slot, Head(w.s3, re.reached), re, w.now);
      r.outcome.Uploaded? || (r.outcome.Same? && w.slot.meta.None?)
    ensures var w' := AfterResync(w, re); w'.slot.file == Some(f) && Accounted(w', Ver(f))
  {
  }

  lemma MoveKeepsPending(w: World, t: Thread, u: UploadStep, f: File)
    requires MoveEnabled(w, t.pc, u) && Guarded(w, f)
    requires (u.Mark? || (u.Reconcile? && (t.pc.verdict.LocalInSync? || t.pc.verdict.LocalOlder?))) ==>
      !StillUploaded(w.slot, t.pc.info, Some(t.started))
    ensures Guarded(Move(w, t, u).0, f) && (Pending(w, f) ==> Pending(Move(w, t, u).0, f))
  {
  }

  lemma DaemonKeepsPending(s: State, d: DaemonStep, f: File)
    requires DaemonEnabled(s, d) && Preserving(Daemon(d)) && !Accepts(s, Daemon(d))
    requires s.condemned == 0 && Guarded(s.w, f)
    ensures Guarded(ApplyDaemon(s, d).w, f) && (Pending(s.w, f) ==> Pending(ApplyDaemon(s, d).w, f))
    ensures ApplyDaemon(s, d).downs == s.downs && ApplyDaemon(s, d).condemned == 0
  {
  }

  /** A download that comes upon a guarded entry leaves it alone, unless it judges it. */
  lemma PullKeepsPending(w: World, pc: DownPc, p: DownStep, f: File)
    requires PullEnabled(w, pc, p) && Guarded(w, f) && !Committed(pc)
    requires p.Judge? && pc.head.Found? ==> f.mtime > pc.head.obj.lastModified
    ensures var (w', pc') := Pull(w, pc, p);
      && w'.slot == w.slot && !Committed(pc')
      && (Pending(w, f) ==> !pc'.Statting?)
  {
  }

  lemma DownKeepsPending(s: State, n: nat, p: DownStep, f: File)
    requires Enabled(s, Down(n, p)) && NoneCommitted(s) && Guarded(s.w, f) && !Judges(s, Down(n, p))
    ensures var s' := Apply(s, Down(n, p));
      Guarded(s'.w, f) && (Pending(s.w, f) ==> Pending(s'.w, f)) && NoneCommitted(s')
    ensures Pending(s.w, f) && NoneCondemns(s, f) ==> NoneCondemns(Apply(s, Down(n, p)), f)
  {
    if !p.Ask? { PullKeepsPending(s.w, s.downs[n], p, f); }
  }

  lemma StepKeepsPending(s: State, step: Step, f: File)
    requires Enabled(s, step) && Preserving(step) && NoneCommitted(s) && Guarded(s.w, f)
    requires !Accepts(s, step) && !Judges(s, step)
    ensures var s' := Apply(s, step);
      Guarded(s'.w, f) && (Pending(s.w, f) ==> Pending(s'.w, f)) && NoneCommitted(s')
    ensures Pending(s.w, f) && NoneCondemns(s, f) ==> NoneCondemns(Apply(s, step), f)
  {
    match step {
      case Env(e) =>
      case Daemon(d) => DaemonKeepsPending(s, d, f);
      case Upload(g, u) =>
        UploadKeepsDowns(s, g, u);
        if !u.Trigger? {
          UploadIsMove(s, g, u);
          MoveKeepsPending(s.w, s.c.threads[g], u, f);
        }
      case Handler(b, k) => HandlerKeepsDowns(s, b, k);
      case Down(n, p) => DownKeepsPending(s, n, p, f);
    }
  }

  /** Never lose a local write: a pending file keeps its bytes and its mark through any run of
      downloads, evictions, scans, uploads, failed resyncs, foreign writes to S3 and crashes, until a step
      of this very run accepts it; provided no eviction has picked it, and no download has come too far to
      see the mark, when the run starts. */
  lemma {:induction false} PendingSurvives(s: State, steps: seq<Step>, f: File)
    requires Valid(s, steps) && AllPreserving(steps) && Pending(s.w, f) && NoneCondemns(s, f)
    ensures Pending(Exec(s, steps).w, f) || AcceptedIn(s, steps)
    decreases |steps|
  {
    if steps != [] && !Accepts(s, steps[0]) {
      assert !Judges(s, steps[0]);
      StepKeepsPending(s, steps[0], f);
      PendingSurvives(Apply(s, steps[0]), steps[1..], f);
    }
  }

  /** A file without metadata is kept likewise, until a step of the run accepts it or a download finds
      S3 to hold an object not older than it. */
  lemma {:induction false} GuardedSurvives(s: State, steps: seq<Step>, f: File)
    requires Valid(s, steps) && AllPreserving(steps) && Guarded(s.w, f) && NoneCommitted(s)
    ensures Guarded(Exec(s, steps).w, f) || SettledIn(s, steps)
    decreases |steps|
  {
    if steps != [] && !Accepts(s, steps[0]) && !Judges(s, steps[0]) {
      StepKeepsPending(s, steps[0], f);
      GuardedSurvives(Apply(s, steps[0]), steps[1..], f);
    }
  }

  /** A download that found no metadata goes on to replace the file exactly if S3 has an object of another
      size that is not older; it records it as synced exactly if that object has its size. */
  lemma MetalessReplacedIff(w: World, head: HeadResult, f: File, delivered: bool)
    requires w.slot.file == Some(f)
    ensures var pc := Judgement(w, head, delivered).1;
      && (pc.Comparing? <==>
          head.Found? && f.mtime <= head.obj.lastModified && |f.data| != |head.obj.data|)
      && (pc.Acting? <==>
          head.Found? && f.mtime <= head.obj.lastModified && |f.data| == |head.obj.data|)
      && (pc.Acting? ==> pc.what == Backfill(f.data))
  {
  }

  // ---- and exactly when ----

  ghost predicate Loses(s: State, steps: seq<Step>, f: File) {
    Valid(s, steps) && AllPreserving(steps) && !AcceptedIn(s, steps) && !Pending(Exec(s, steps).w, f)
  }

  ghost predicate CanLose(s: State, f: File) { exists steps :: Loses(s, steps, f) }

  /** The same for a file that need not be marked, with nothing to justify it. */
  ghost predicate LosesGuarded(s: State, steps: seq<Step>, f: File) {
    Valid(s, steps) && AllPreserving(steps) && !SettledIn(s, steps) && !Guarded(Exec(s, steps).w, f)
  }

  ghost predicate CanLoseGuarded(s: State, f: File) { exists steps :: LosesGuarded(s, steps, f) }

  lemma {:induction false} UnsettledIsUnaccepted(s: State, steps: seq<Step>)
    requires Valid(s, steps) && AcceptedIn(s, steps)
    ensures SettledIn(s, steps)
    decreases |steps|
  {
    if !Accepts(s, steps[0]) { UnsettledIsUnaccepted(Apply(s, steps[0]), steps[1..]); }
  }

  lemma Alone(s: State, step: Step)
    requires Enabled(s, step)
    ensures Valid(s, [step]) && Exec(s, [step]) == Apply(s, step)
    ensures !Accepts(s, step) ==> !AcceptedIn(s, [step])
    ensures !Accepts(s, step) && !Judges(s, step) ==> !SettledIn(s, [step])
  {
    assert [step][1..] == [];
  }

  lemma LosesLater(s: State, step: Step, rest: seq<Step>, f: File)
    requires Enabled(s, step) && Preserving(step) && !Accepts(s, step)
    ensures Loses(Apply(s, step), rest, f) ==> Loses(s, [step] + rest, f)
    ensures !Judges(s, step) && LosesGuarded(Apply(s, step), rest, f) ==> LosesGuarded(s, [step] + rest, f)
  {
    assert ([step] + rest)[1..] == rest;
  }

  lemma FetchedLoses(s: State, f: File, n: nat) returns (steps: seq<Step>)
    requires Inv(s) && s.w.slot.file == Some(f) && n in s.downs && s.downs[n].Fetched?
    ensures LosesGuarded(s, steps, f)
  {
    var other := NewFile(s.w, s.downs[n].body.data);
    var rename := Down(n, Rename(true, other.inode, other.mtime));
    Alone(s, rename);
    assert Apply(s, rename).w.slot.file == Some(other) && other != f;
    steps := [rename];
  }

  lemma FetchingLoses(s: State, f: File, n: nat) returns (steps: seq<Step>)
    requires Inv(s) && s.w.slot.file == Some(f) && n in s.downs && s.downs[n].Fetching?
    ensures LosesGuarded(s, steps, f)
  {
    var o := NewObject(s.w, f.data);
    var put := Env(RemotePut(o));
    var s1 := Apply(s, put);
    StepKeepsInv(s, put);
    var transfer := Down(n, Transfer(true));
    StepKeepsInv(s1, transfer);
    var rest := FetchedLoses(Apply(s1, transfer), f, n);
    LosesLater(s1, transfer, rest, f);
    LosesLater(s, put, [transfer] + rest, f);
    steps := [put] + ([transfer] + rest);
  }

  lemma ActingLoses(s: State, f: File, n: nat) returns (steps: seq<Step>)
    requires Inv(s) && s.w.slot.file == Some(f) && n in s.downs && s.downs[n].Acting?
    ensures LosesGuarded(s, steps, f)
  {
    steps := [Down(n, Act(true))];
    Alone(s, steps[0]);
  }

  /** A mark carries no ETag: it makes the record look stale. */
  lemma ComparingLoses(s: State, f: File, n: nat) returns (steps: seq<Step>)
    requires Inv(s) && Guarded(s.w, f) && n in s.downs && s.downs[n].Comparing?
    ensures LosesGuarded(s, steps, f)
  {
    var compare := Down(n, Compare);
    assert DownOk(s.w, s.downs[n]);
    StepKeepsInv(s, compare);
    var rest := ActingLoses(Apply(s, compare), f, n);
    LosesLater(s, compare, rest, f);
    steps := [compare] + rest;
  }

  lemma EvictionLoses(s: State, f: File) returns (steps: seq<Step>)
    requires Guarded(s.w, f) && s.condemned > 0
    ensures LosesGuarded(s, steps, f)
  {
    steps := [Daemon(Evict(true))];
    Alone(s, steps[0]);
  }

  lemma CommittedLoses(s: State, f: File, n: nat) returns (steps: seq<Step>)
    requires Inv(s) && Guarded(s.w, f) && n in s.downs && Committed(s.downs[n])
    ensures LosesGuarded(s, steps, f)
  {
    match s.downs[n] {
      case Comparing(_) => steps := ComparingLoses(s, f, n);
      case Acting(_, _) => steps := ActingLoses(s, f, n);
      case Fetching(_) => steps := FetchingLoses(s, f, n);
      case Fetched(_, _) => steps := FetchedLoses(s, f, n);
      case Renamed(_, _, _) =>
        steps := [Down(n, Stamp)];
        Alone(s, steps[0]);
    }
  }

  lemma UncommittedLoses(s: State, f: File) returns (steps: seq<Step>)
    requires Inv(s) && Guarded(s.w, f) && !NoneCommitted(s)
    ensures LosesGuarded(s, steps, f)
  {
    if s.condemned > 0 {
      steps := EvictionLoses(s, f);
    } else {
      var n :| n in s.downs && Committed(s.downs[n]);
      steps := CommittedLoses(s, f, n);
    }
  }

  lemma StattingLoses(s: State, f: File, n: nat) returns (steps: seq<Step>)
    requires Inv(s) && Pending(s.w, f) && n in s.downs && s.downs[n].Statting? && Condemns(s.downs[n], f)
    ensures Loses(s, steps, f)
  {
    var judge := Down(n, Judge(true));
    StepKeepsInv(s, judge);
    var s1 := Apply(s, judge);
    assert s1.w.slot == s.w.slot && Committed(s1.downs[n]);
    var rest := CommittedLoses(s1, f, n);
    if AcceptedIn(s1, rest) { UnsettledIsUnaccepted(s1, rest); }
    LosesLater(s, judge, rest, f);
    steps := [judge] + rest;
  }

  /** Exactly: some run loses a pending file, or its mark, without accepting it, if and only if an eviction
      has picked it, or a download is in flight that has come too far to see the mark. The last thing such a
      download looks at is the record's ETag, and a mark has none. */
  lemma PendingLostIff(s: State, f: File)
    requires Inv(s) && Pending(s.w, f)
    ensures CanLose(s, f) <==> !NoneCondemns(s, f)
  {
    if !NoneCommitted(s) {
      var steps := UncommittedLoses(s, f);
      if AcceptedIn(s, steps) { UnsettledIsUnaccepted(s, steps); }
      assert Loses(s, steps, f);
    } else if !NoneCondemns(s, f) {
      var n :| n in s.downs && Condemns(s.downs[n], f);
      var steps := StattingLoses(s, f, n);
    } else if steps :| Loses(s, steps, f) {
      PendingSurvives(s, steps, f);
    }
  }

  /** And a file that is pending or has no metadata is lost with nothing to justify it if and only if an
      eviction has picked it or a download is past judging it. */
  lemma GuardedLostIff(s: State, f: File)
    requires Inv(s) && Guarded(s.w, f)
    ensures CanLoseGuarded(s, f) <==> !NoneCommitted(s)
  {
    if !NoneCommitted(s) {
      var steps := UncommittedLoses(s, f);
    } else if steps :| LosesGuarded(s, steps, f) {
      GuardedSurvives(s, steps, f);
    }
  }

  /** End to end: a file in any reachable state, a crash, the scan, and any further run without an
      explicit request for the key. If its metadata covered it, it is accounted for. Otherwise the scan
      queues it and guards it, and it is still there and guarded at the end, or was settled since. */
  lemma NothingLostAcrossCrash(s: State, before: seq<Step>, after: seq<Step>, f: File)
    requires Init(s) && Valid(s, before) && Exec(s, before).w.slot.file == Some(f)
    requires Valid(Restarted(Exec(s, before)), after) && AllPreserving(after)
    ensures var t := Exec(s, before);
      var u := Restarted(t);
      if Covered(t.w.slot) then Accounted(t.w, Ver(f))
      else u.w.queued && Guarded(u.w, f) && (Guarded(Exec(u, after).w, f) || SettledIn(u, after))
  {
    ReachableInv(s, before);
    var t := Exec(s, before);
    if !Covered(t.w.slot) { GuardedSurvives(Restarted(t), after, f); }
  }

  function Restarted(s: State): State { ApplyDaemon(ApplyEnv(s, Crash), Scan) }

  // ---- a write nobody has noticed ----

  /** The steps of the daemon that take a file away. None of them asks whether the metadata covers it. */
  predicate TakesFile(s: State, step: Step)
    requires Enabled(s, step)
  {
    match step
    case Daemon(Evict(unlinked)) => unlinked
    case Down(n, Act(unlinked)) => unlinked && (s.downs[n].what.Purge? || s.downs[n].what.Refetch?)
    case Down(_, Rename(renamed, _, _)) => renamed
    case _ => false
  }

  lemma DaemonTakesIff(s: State, d: DaemonStep, f: File)
    requires s.w.slot.file == Some(f) && DaemonEnabled(s, d) && Preserving(Daemon(d))
    ensures ApplyDaemon(s, d).w.slot.file == Some(f) <==> !(d.Evict? && d.unlinked)
  {
    if d.ResyncFile? { ResyncEffects(s.w.slot, Head(s.w.s3, d.re.reached), d.re, s.w.now); }
  }

  /** Whatever its metadata says, a file outlives a step exactly if the step is neither an eviction, nor
      the unlinking of a purged or stale file, nor the rename of a downloaded one. */
  lemma FileStaysIff(s: State, step: Step, f: File)
    requires Inv(s) && Enabled(s, step) && Preserving(step) && s.w.slot.file == Some(f)
    ensures Apply(s, step).w.slot.file == Some(f) <==> !TakesFile(s, step)
  {
    match step {
      case Env(e) =>
      case Daemon(d) => DaemonTakesIff(s, d, f);
      case Upload(g, u) => UploadKeepsDowns(s, g, u);
      case Handler(b, k) =>
      case Down(n, p) => if p.Act? { ActTakesIff(s.w, s.downs[n], p.unlinked, f); }
    }
  }

  lemma ActTakesIff(w: World, pc: DownPc, unlinked: bool, f: File)
    requires w.slot.file == Some(f) && pc.Acting?
    ensures Pull(w, pc, Act(unlinked)).0.slot.file == Some(f) <==>
      !(unlinked && (pc.what.Purge? || pc.what.Refetch?))
  {
  }

  /** A synced file, rewritten or not, may be picked by an eviction; a download that reads its metadata
      purges it exactly if HEAD found no object, and otherwise compares ETags if HEAD found one. */
  lemma SyncedIsReadIff(s: State, head: HeadResult, delivered: bool)
    requires s.w.slot.file.Some? && !LocalAuthoritative(s.w.slot)
    ensures var pc := Pull(s.w, Reading(head), Read(delivered)).1;
      && (pc.Acting? && pc.what.Purge? <==> head.NotFound?)
      && (pc.Comparing? <==> head.Found?)
      && (pc.Answered? <==> head.Unreachable?)
    ensures Enabled(s, Daemon(Condemn))
  {
  }

  /** The comparison condemns whatever file is there by then, exactly if the record there by then does not
      match: none, or a pending mark, never does. */
  lemma ComparedIsCondemnedIff(w: World, head: HeadResult)
    requires WorldInv(w) && head.Found? && HeadKnown(w, head)
    ensures var pc := Pull(w, Comparing(head), Compare).1;
      && (pc.Acting? && pc.what.Refetch? <==> IsStale(w.slot.meta, head.obj))
      && (!pc.Acting? ==> pc.Answered?)
      && (w.slot.meta.None? || w.slot.meta.value.pending ==> pc.Acting?)
  {
  }

  /** Which entries an undisturbed upload puts over the object: those it finds uncovered, and, if they
      have no metadata, newer than the object. */
  lemma PushesIff(w: World, t: Thread)
    requires w.slot.file.Some? && t.pc == ReadingMeta(Stat(w.slot.file.value))
    ensures var (w1, t1) := Move(w, t, ReadMeta);
      var (w2, t2) := if t1.pc.Heading? then Move(w1, t1, HeadReturns(true)) else (w1, t1);
      var (w3, t3) := if t2.pc.Reconciling? then Move(w2, t2, Reconcile) else (w2, t2);
      t3.pc.Putting? || t3.pc.Restarting? <==> Pushes(w.slot, w.s3)
  {
  }

  // ---- rewrite during upload ----

  /** A version that is on record but no longer (or not) at the path. */
  ghost predicate Replaced(w: World, v: Version) {
    v in w.h.versions && (w.slot.file.Some? ==> Ver(w.slot.file.value) != v)
  }

  /** A step leaves the file, removes it, or puts a version there that was never there before. */
  ghost predicate Renews(w: World, w': World) {
    w'.slot.file.Some? ==> w'.slot.file == w.slot.file || Ver(w'.slot.file.value) !in w.h.versions
  }

  lemma DaemonRenews(s: State, d: DaemonStep)
    requires DaemonEnabled(s, d)
    ensures Renews(s.w, ApplyDaemon(s, d).w)
  {
    if d.ResyncFile? { ResyncEffects(s.w.slot, Head(s.w.s3, d.re.reached), d.re, s.w.now); }
  }

  lemma StepRenews(s: State, step: Step)
    requires Enabled(s, step)
    ensures Renews(s.w, Apply(s, step).w)
  {
    match step {
      case Env(e) =>
      case Daemon(d) => DaemonRenews(s, d);
      case Down(n, p) =>
      case Upload(g, u) => if !u.Trigger? { MoveKeepsFile(s.w, s.c.threads[g], u); }
      case Handler(b, k) =>
    }
  }

  lemma StepKeepsReplaced(s: State, step: Step, v: Version)
    requires Inv(s) && Enabled(s, step) && Replaced(s.w, v)
    ensures Replaced(Apply(s, step).w, v)
  {
    StepGrows(s, step);
    StepRenews(s, step);
  }

  lemma {:induction false} RunKeepsReplaced(s: State, steps: seq<Step>, v: Version)
    requires Inv(s) && Valid(s, steps) && Replaced(s.w, v)
    ensures Replaced(Exec(s, steps).w, v)
    decreases |steps|
  {
    if steps != [] {
      StepKeepsReplaced(s, steps[0], v);
      StepKeepsInv(s, steps[0]);
      RunKeepsReplaced(Apply(s, steps[0]), steps[1..], v);
    }
  }

  /** When an upload is recorded as synced, the bytes it put on S3 are the bytes at the path,
      whatever PVE wrote or moved there meanwhile; otherwise the record stays as it was. */
  lemma SyncedMeansSame(s: State, steps: seq<Step>, g: nat)
    requires Init(s) && Valid(s, steps) && Enabled(Exec(s, steps), Upload(g, Mark))
    ensures var t := Exec(s, steps);
      var t' := Apply(t, Upload(g, Mark));
      var o := t.c.threads[g].pc.obj;
      if t'.w.slot != t.w.slot || t'.c.threads[g].pc.Finishing? then
        && Covered(t'.w.slot) && t'.w.slot.file == t.w.slot.file
        && o.data == t'.w.slot.file.value.data && o.data in t'.w.h.stored
        && t'.w.slot.meta.value.etag == o.etag && o.etag in t'.w.h.etags && t'.w.h.etags[o.etag] == o.data
      else t'.c.threads[g].pc.Remarking?
  {
    ReachableInv(s, steps);
    var t := Exec(s, steps);
    var th := t.c.threads[g];
    if StillUploaded(t.w.slot, th.pc.info, Some(th.started)) {
      AcceptedUploadIsCurrent(t.w, th.pc.info, Some(th.started), th.pc.obj);
    }
  }

  /** The goroutine has the file that stat described as info open. */
  predicate HasOpen(pc: Pc, info: FileInfo) {
    match pc
    case Publishing(i) => i == info
    case ReadingMeta(i) => i == info
    case Heading(i) => i == info
    case Reconciling(i, _, _) => i == info
    case Restarting(i) => i == info
    case Putting(i) => i == info
    case InPut(i, _) => i == info
    case Checking(i, _) => i == info
    case Marking(i, _) => i == info
    case _ => false
  }

  predicate PendingOrAccounted(w: World) {
    w.slot.file.Some? ==>
      || (w.slot.meta.Some? && w.slot.meta.value.pending)
      || (Covered(w.slot) && Accounted(w, Ver(w.slot.file.value)))
  }

  /** The upload's mark changes nothing but its own position. */
  predicate MarkRefused(t: State, g: nat)
    requires Enabled(t, Upload(g, Mark))
  {
    var t' := Apply(t, Upload(g, Mark));
    t'.w == t.w && g in t'.c.threads && t'.c.threads[g].pc.Remarking?
  }

  /** Once the steps have been taken, the one that follows a refused mark settles the path. */
  predicate SettlesAfter(s: State, steps: seq<Step>, g: nat) {
    Valid(s, steps) && Enabled(Exec(s, steps), Upload(g, Remark)) ==>
      PendingOrAccounted(Apply(Exec(s, steps), Upload(g, Remark)).w)
  }

  lemma RemarkSettles(s: State, steps: seq<Step>, g: nat)
    requires Inv(s)
    ensures SettlesAfter(s, steps, g)
  {
    if Valid(s, steps) && Enabled(Exec(s, steps), Upload(g, Remark)) {
      RunKeepsInv(s, steps);
      UploadIsMove(Exec(s, steps), g, Remark);
      PendedSettles(Exec(s, steps).w);
    }
  }

  /** A PVE write that lands any time after an upload opened the file: that upload is never recorded
      as synced; and whatever happens before its last step, that one leaves the path marked pending, or with
      metadata that is right. */
  lemma RewriteStaysPending(s: State, f: File, steps: seq<Step>, g: nat, info: FileInfo)
    requires Inv(s) && At(s, g) && HasOpen(s.c.threads[g].pc, info) && Enabled(s, Env(PveWrite(f)))
    requires Valid(ApplyEnv(s, PveWrite(f)), steps)
    requires var t := Exec(ApplyEnv(s, PveWrite(f)), steps);
      g in t.c.threads && t.c.threads[g].pc.Marking? && t.c.threads[g].pc.info == info && Enabled(t, Upload(g, Mark))
    ensures var t := Exec(ApplyEnv(s, PveWrite(f)), steps);
      MarkRefused(t, g) && forall later :: SettlesAfter(Apply(t, Upload(g, Mark)), later, g)
  {
    WriteReplaces(s, f, g, info);
    LaterMarkRefused(ApplyEnv(s, PveWrite(f)), steps, g, info);
    RunKeepsInv(ApplyEnv(s, PveWrite(f)), steps);
    RefusedMarkSettles(Exec(ApplyEnv(s, PveWrite(f)), steps), g);
  }

  lemma WriteReplaces(s: State, f: File, g: nat, info: FileInfo)
    requires Inv(s) && At(s, g) && HasOpen(s.c.threads[g].pc, info) && Enabled(s, Env(PveWrite(f)))
    ensures Inv(ApplyEnv(s, PveWrite(f))) && Replaced(ApplyEnv(s, PveWrite(f)).w, InfoVer(info))
  {
    assert ThreadOk(s.w, s.c.threads[g]);
    StepKeepsInv(s, Env(PveWrite(f)));
  }

  lemma RefusedMarkSettles(t: State, g: nat)
    requires Inv(t) && Enabled(t, Upload(g, Mark))
    ensures forall later :: SettlesAfter(Apply(t, Upload(g, Mark)), later, g)
  {
    StepKeepsInv(t, Upload(g, Mark));
    forall later ensures SettlesAfter(Apply(t, Upload(g, Mark)), later, g) {
      RemarkSettles(Apply(t, Upload(g, Mark)), later, g);
    }
  }

  lemma LaterMarkRefused(s: State, steps: seq<Step>, g: nat, info: FileInfo)
    requires Inv(s) && Replaced(s.w, InfoVer(info)) && Valid(s, steps)
    requires var t := Exec(s, steps);
      g in t.c.threads && t.c.threads[g].pc.Marking? && t.c.threads[g].pc.info == info && Enabled(t, Upload(g, Mark))
    ensures MarkRefused(Exec(s, steps), g)
  {
    RunKeepsReplaced(s, steps, InfoVer(info));
    RunKeepsInv(s, steps);
    RefusedMark(Exec(s, steps), g, info);
  }

  lemma PendedSettles(w: World)
    requires WorldInv(w)
    ensures PendingOrAccounted(Pended(w))
  {
    MarkPendingSettles(w.slot, w.now);
    MarkPendingKeeps(w);
  }

  lemma RefusedMark(t: State, g: nat, info: FileInfo)
    requires WorldInv(t.w) && Replaced(t.w, InfoVer(info)) && Enabled(t, Upload(g, Mark))
      && t.c.threads[g].pc.info == info
    ensures MarkRefused(t, g)
  {
    UploadIsMove(t, g, Mark);
  }
}
