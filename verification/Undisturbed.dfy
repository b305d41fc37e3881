/** What the protocol does when nothing gets in its way, however long it takes: uploads end with the
    file on S3 and recorded as synced, and failed ones are tried again. */
module Undisturbed {
  import opened Metadata
  import opened Protocol
  import opened Coordination
  import opened NoLoss
  import opened Durability
  import opened Runs

  // ---- one attempt ----

  /** Steps of one goroutine, with time passing in between. */
  predicate AllOf(steps: seq<Step>, g: nat) {
    forall i :: 0 <= i < |steps| ==> (steps[i].Upload? && steps[i].g == g) || (steps[i].Env? && steps[i].e.Tick?)
  }

  /** The file is as it was, and recorded as synced under this ETag. */
  predicate Recorded(w: World, f: File, etag: ETag) {
    w.slot.file == Some(f) && Covered(w.slot) && w.slot.meta.value.etag == etag
  }

  /** The goroutine's own steps lead to the end of its attempt, with no retry, the file recorded and S3
      holding the object. */
  ghost predicate Syncs(s: State, steps: seq<Step>, g: nat, f: File, etag: ETag, s3: Option<Object>) {
    && Valid(s, steps) && AllOf(steps, g)
    && (var t := Exec(s, steps);
        && Recorded(t.w, f, etag) && t.w.s3 == s3
        && At(t, g) && t.c.threads[g].pc == Finishing(false))
  }

  /** A goroutine that nobody canceled, with time to go. */
  ghost predicate Free(s: State, g: nat) {
    At(s, g) && !s.c.sh.states[g].canceled && s.c.sh.states[g].ended == {}
  }

  /** After d, one step of g's, and then the rest. */
  lemma Onward(s: State, d: nat, g: nat, u: UploadStep, rest: seq<Step>, f: File, etag: ETag, s3: Option<Object>)
    requires var s1 := Apply(s, Env(Tick(d)));
      Enabled(s1, Upload(g, u)) && Syncs(Apply(s1, Upload(g, u)), rest, g, f, etag, s3)
    ensures Syncs(s, [Env(Tick(d))] + ([Upload(g, u)] + rest), g, f, etag, s3)
  {
    var s1 := Apply(s, Env(Tick(d)));
    Prepend(s1, Upload(g, u), rest);
    Prepend(s, Env(Tick(d)), [Upload(g, u)] + rest);
  }

  /** The file an attempt works on: it is at the path, not from the future, and no mark of it is newer than
      the attempt's start. */
  predicate InHand(w: World, t: Thread, f: File) {
    && w.slot.file == Some(f) && f.mtime <= w.now
    && (w.slot.meta.Some? && w.slot.meta.value.pending ==> w.slot.meta.value.cachedAt <= t.started)
  }

  lemma MarkingSyncs(s: State, g: nat, f: File, o: Object, d: nat) returns (steps: seq<Step>)
    requires Free(s, g) && s.c.threads[g].pc == Marking(Stat(f), o) && InHand(s.w, s.c.threads[g], f)
    ensures Syncs(s, steps, g, f, o.etag, s.w.s3)
  {
    Onward(s, d, g, Mark, [], f, o.etag, s.w.s3);
    steps := [Env(Tick(d))] + ([Upload(g, Mark)] + []);
  }

  lemma CheckingSyncs(s: State, g: nat, f: File, o: Object, d: nat) returns (steps: seq<Step>)
    requires Free(s, g) && s.c.threads[g].pc == Checking(Stat(f), o) && InHand(s.w, s.c.threads[g], f)
    ensures Syncs(s, steps, g, f, o.etag, s.w.s3)
  {
    var rest := MarkingSyncs(Apply(Apply(s, Env(Tick(d))), Upload(g, Check)), g, f, o, d);
    Onward(s, d, g, Check, rest, f, o.etag, s.w.s3);
    steps := [Env(Tick(d))] + ([Upload(g, Check)] + rest);
  }

  lemma LandedSyncs(s: State, g: nat, f: File, o: Object, d: nat) returns (steps: seq<Step>)
    requires Free(s, g) && s.c.threads[g].pc == InPut(Stat(f), Some(o)) && InHand(s.w, s.c.threads[g], f)
    ensures Syncs(s, steps, g, f, o.etag, s.w.s3)
  {
    var rest := CheckingSyncs(Apply(Apply(s, Env(Tick(d))), Upload(g, PutReturns(true))), g, f, o, d);
    Onward(s, d, g, PutReturns(true), rest, f, o.etag, s.w.s3);
    steps := [Env(Tick(d))] + ([Upload(g, PutReturns(true))] + rest);
  }

  lemma InPutSyncs(s: State, g: nat, f: File, o: Object, d: nat) returns (steps: seq<Step>)
    requires Free(s, g) && s.c.threads[g].pc == InPut(Stat(f), None) && InHand(s.w, s.c.threads[g], f)
    requires FreshObject(s.w, o) && CleanRead(s.w, Stat(f), o)
    ensures Syncs(s, steps, g, f, o.etag, Some(o))
  {
    var rest := LandedSyncs(Apply(Apply(s, Env(Tick(d))), Upload(g, Land(o))), g, f, o, d);
    Onward(s, d, g, Land(o), rest, f, o.etag, Some(o));
    steps := [Env(Tick(d))] + ([Upload(g, Land(o))] + rest);
  }

  lemma PuttingSyncs(s: State, g: nat, f: File, o: Object, d: nat) returns (steps: seq<Step>)
    requires Free(s, g) && s.c.threads[g].pc == Putting(Stat(f)) && InHand(s.w, s.c.threads[g], f)
    requires FreshObject(s.w, o) && CleanRead(s.w, Stat(f), o)
    ensures Syncs(s, steps, g, f, o.etag, Some(o))
  {
    var rest := InPutSyncs(Apply(Apply(s, Env(Tick(d))), Upload(g, StartPut)), g, f, o, d);
    Onward(s, d, g, StartPut, rest, f, o.etag, Some(o));
    steps := [Env(Tick(d))] + ([Upload(g, StartPut)] + rest);
  }

  /** The attempt's own mark does not count against it: it starts anew after it. */
  lemma RestartingSyncs(s: State, g: nat, f: File, o: Object, d: nat) returns (steps: seq<Step>)
    requires Free(s, g) && s.c.threads[g].pc == Restarting(Stat(f)) && WorldInv(s.w) && s.w.slot.file == Some(f)
    requires FreshObject(s.w, o) && CleanRead(s.w, Stat(f), o)
    ensures Syncs(s, steps, g, f, o.etag, Some(o))
  {
    var rest := PuttingSyncs(Apply(Apply(s, Env(Tick(d))), Upload(g, Restart)), g, f, o, d);
    Onward(s, d, g, Restart, rest, f, o.etag, Some(o));
    steps := [Env(Tick(d))] + ([Upload(g, Restart)] + rest);
  }

  /** HEAD found nothing, or an older object. */
  lemma WinningSyncs(s: State, g: nat, f: File, o: Object, d: nat) returns (steps: seq<Step>)
    requires Free(s, g) && s.c.threads[g].pc.Reconciling? && s.c.threads[g].pc.info == Stat(f)
    requires s.c.threads[g].pc.verdict.LocalMissing? || s.c.threads[g].pc.verdict.LocalNewer?
    requires WorldInv(s.w) && s.w.slot.file == Some(f)
    requires FreshObject(s.w, o) && CleanRead(s.w, Stat(f), o)
    ensures Syncs(s, steps, g, f, o.etag, Some(o))
  {
    var s1 := Apply(s, Env(Tick(d)));
    MarkPendingKeeps(s1.w);
    var rest := RestartingSyncs(Apply(s1, Upload(g, Reconcile)), g, f, o, d);
    Onward(s, d, g, Reconcile, rest, f, o.etag, Some(o));
    steps := [Env(Tick(d))] + ([Upload(g, Reconcile)] + rest);
  }

  /** HEAD found an object not older: it is recorded, with its ETag if it passes for the same, else without. */
  lemma LosingSyncs(s: State, g: nat, f: File, found: Object, d: nat) returns (steps: seq<Step>)
    requires Free(s, g) && InHand(s.w, s.c.threads[g], f) && f.mtime <= found.lastModified
    requires s.c.threads[g].pc == Reconciling(Stat(f), ReconcileLocal(Stat(f), Found(found)), Found(found))
    ensures Syncs(s, steps, g, f, if |f.data| == |found.data| then found.etag else "", s.w.s3)
  {
    var etag := if |f.data| == |found.data| then found.etag else "";
    Onward(s, d, g, Reconcile, [], f, etag, s.w.s3);
    steps := [Env(Tick(d))] + ([Upload(g, Reconcile)] + []);
  }

  /** What an attempt on f is to end with: f's own object o if f is to be pushed, else what is there. */
  function Outcome(w: World, f: File, o: Object): (ETag, Option<Object>) {
    if Pushes(w.slot, w.s3) then (o.etag, Some(o))
    else if w.slot.meta.Some? then (w.slot.meta.value.etag, w.s3)
    else (if w.s3.Some? && |f.data| == |w.s3.value.data| then w.s3.value.etag else "", w.s3)
  }

  lemma HeadingSyncs(s: State, g: nat, f: File, o: Object, d: nat) returns (steps: seq<Step>)
    requires Free(s, g) && s.c.threads[g].pc == Heading(Stat(f)) && WorldInv(s.w) && s.w.slot == Slot(Some(f), None)
    requires FreshObject(s.w, o) && CleanRead(s.w, Stat(f), o)
    ensures Syncs(s, steps, g, f, Outcome(s.w, f, o).0, Outcome(s.w, f, o).1)
  {
    var s1 := Apply(s, Env(Tick(d)));
    var s2 := Apply(s1, Upload(g, HeadReturns(true)));
    JudgeKeeps(s1.w, Stat(f), ReconcileLocal(Stat(f), Head(s.w.s3, true)));
    var rest;
    if Pushes(s.w.slot, s.w.s3) {
      rest := WinningSyncs(s2, g, f, o, d);
    } else {
      rest := LosingSyncs(s2, g, f, s.w.s3.value, d);
    }
    Onward(s, d, g, HeadReturns(true), rest, f, Outcome(s.w, f, o).0, Outcome(s.w, f, o).1);
    steps := [Env(Tick(d))] + ([Upload(g, HeadReturns(true))] + rest);
  }

  lemma CoveredSyncs(s: State, g: nat, f: File, d: nat) returns (steps: seq<Step>)
    requires Free(s, g) && s.c.threads[g].pc == ReadingMeta(Stat(f)) && s.w.slot.file == Some(f) && Covered(s.w.slot)
    ensures Syncs(s, steps, g, f, s.w.slot.meta.value.etag, s.w.s3)
  {
    Onward(s, d, g, ReadMeta, [], f, s.w.slot.meta.value.etag, s.w.s3);
    steps := [Env(Tick(d))] + ([Upload(g, ReadMeta)] + []);
  }

  lemma ReadingSyncs(s: State, g: nat, f: File, o: Object, d: nat) returns (steps: seq<Step>)
    requires Free(s, g) && s.c.threads[g].pc == ReadingMeta(Stat(f)) && WorldInv(s.w)
    requires InHand(s.w, s.c.threads[g], f) && FreshObject(s.w, o) && CleanRead(s.w, Stat(f), o)
    ensures Syncs(s, steps, g, f, Outcome(s.w, f, o).0, Outcome(s.w, f, o).1)
  {
    if Covered(s.w.slot) {
      steps := CoveredSyncs(s, g, f, d);
    } else {
      var s2 := Apply(Apply(s, Env(Tick(d))), Upload(g, ReadMeta));
      var rest;
      if s.w.slot.meta.None? { rest := HeadingSyncs(s2, g, f, o, d); } else { rest := PuttingSyncs(s2, g, f, o, d); }
      Onward(s, d, g, ReadMeta, rest, f, Outcome(s.w, f, o).0, Outcome(s.w, f, o).1);
      steps := [Env(Tick(d))] + ([Upload(g, ReadMeta)] + rest);
    }
  }

  lemma PublishingSyncs(s: State, g: nat, f: File, o: Object, d: nat) returns (steps: seq<Step>)
    requires Free(s, g) && s.c.threads[g].pc == Publishing(Stat(f)) && WorldInv(s.w)
    requires InHand(s.w, s.c.threads[g], f) && FreshObject(s.w, o) && CleanRead(s.w, Stat(f), o)
    ensures Syncs(s, steps, g, f, Outcome(s.w, f, o).0, Outcome(s.w, f, o).1)
  {
    var rest := ReadingSyncs(Apply(Apply(s, Env(Tick(d))), Upload(g, Publish)), g, f, o, d);
    Onward(s, d, g, Publish, rest, f, Outcome(s.w, f, o).0, Outcome(s.w, f, o).1);
    steps := [Env(Tick(d))] + ([Upload(g, Publish)] + rest);
  }

  lemma OpeningSyncs(s: State, g: nat, f: File, o: Object, d: nat) returns (steps: seq<Step>)
    requires Free(s, g) && s.c.threads[g].pc.Opening? && WorldInv(s.w)
    requires InHand(s.w, s.c.threads[g], f) && FreshObject(s.w, o) && CleanRead(s.w, Stat(f), o)
    ensures Syncs(s, steps, g, f, Outcome(s.w, f, o).0, Outcome(s.w, f, o).1)
  {
    var rest := PublishingSyncs(Apply(Apply(s, Env(Tick(d))), Upload(g, Open(true))), g, f, o, d);
    Onward(s, d, g, Open(true), rest, f, Outcome(s.w, f, o).0, Outcome(s.w, f, o).1);
    steps := [Env(Tick(d))] + ([Upload(g, Open(true))] + rest);
  }

  /** An uncanceled attempt whose S3 calls succeed, however much time passes between its steps: a pending or
      rewritten file, or one without metadata that S3 lacks or has an older object for, ends up on S3
      byte for byte and recorded under its ETag; any other leaves S3 alone and ends up recorded too. */
  lemma AttemptSyncs(s: State, g: nat, f: File, d: nat) returns (steps: seq<Step>, o: Object)
    requires Inv(s) && Free(s, g) && s.c.threads[g].pc.Begin? && s.w.slot.file == Some(f)
    ensures o.data == f.data
    ensures Syncs(s, steps, g, f, Outcome(s.w, f, o).0, Outcome(s.w, f, o).1)
  {
    o := NewObject(s.w, f.data);
    var rest := OpeningSyncs(Apply(Apply(s, Env(Tick(d))), Upload(g, Start)), g, f, o, d);
    Onward(s, d, g, Start, rest, f, Outcome(s.w, f, o).0, Outcome(s.w, f, o).1);
    steps := [Env(Tick(d))] + ([Upload(g, Start)] + rest);
  }

  /** A file without metadata that wins against S3 is marked before its upload begins, so that it stays
      guarded if the daemon crashes meanwhile. */
  lemma WinnerIsMarked(w: World, t: Thread)
    requires t.pc.Reconciling? && (t.pc.verdict.LocalMissing? || t.pc.verdict.LocalNewer?)
    ensures var (w', t') := Move(w, t, Reconcile);
      && t'.pc == Restarting(t.pc.info) && w'.slot.file == w.slot.file
      && !Unnoticed(w'.slot) && (w'.slot.file.Some? ==> w'.slot.meta.Some?)
  {
    MarkPendingSettles(w.slot, w.now);
  }

  // ---- handlers and downloads end ----

  /** The step by which a handler past its wait goes on whatever the others do. */
  function NextHandlerStep(pc: BlockPc): HandlerStep {
    match pc
    case Waiting(_) => Waited
    case Holding => Unblock
    case Deleting(_) => DeleteReturns(false)
    case Deleted(_) => RemoveLocal(false)
    case Removed => Unblock
  }

  function HandlerRank(pc: BlockPc): nat {
    match pc
    case Waiting(_) => 4
    case Holding => 1
    case Deleting(landed) => 3
    case Deleted(_) => 2
    case Removed => 1
  }

  /** A handler past its wait can always go on, each such step brings it closer to its end, and at its end
      it lifts its block, the last one's end leaving the path free. */
  lemma HandlerEnds(s: State, b: nat)
    requires CoordInv(s.c) && b in s.c.blockers && !s.c.blockers[b].Waiting?
    ensures var k := NextHandlerStep(s.c.blockers[b]);
      && Enabled(s, Handler(b, k))
      && var c' := Apply(s, Handler(b, k)).c;
         if k.Unblock? then
           b !in c'.blockers && c'.sh.blocked == s.c.sh.blocked - 1 && (c'.blockers == map[] ==> c'.sh.blocked == 0)
         else b in c'.blockers && HandlerRank(c'.blockers[b]) < HandlerRank(s.c.blockers[b])
  {
    HandlerStepKeeps(s, b, NextHandlerStep(s.c.blockers[b]));
    assert b in s.c.blockers.Keys && |s.c.blockers.Keys| > 0;
  }

  /** A delete that S3 reports as failed, whether it took effect or not, removes nothing locally: the handler can
      then only try again or lift its block. */
  lemma FailedDeleteRemovesNothing(s: State, b: nat, k: HandlerStep)
    requires Enabled(s, Handler(b, DeleteReturns(false)))
    ensures var s' := Apply(s, Handler(b, DeleteReturns(false)));
      s'.w == s.w && (Enabled(s', Handler(b, k)) ==> k.StartDelete? || k.Unblock?)
  {
  }

  /** The step by which a download goes on whatever the others do. */
  function NextDownStep(pc: DownPc): DownStep {
    match pc
    case Asked(_) => Look
    case Reading(_) => Read(true)
    case Statting(_) => Judge(true)
    case Comparing(_) => Compare
    case Acting(_, _) => Act(true)
    case Fetching(_) => Transfer(false)
    case Fetched(_, _) => Rename(false, 0, 0)
    case Renamed(_, _, _) => Stamp
    case Answered(_, _, _) => Stamp
  }

  function DownRank(pc: DownPc): nat {
    match pc
    case Asked(_) => 8
    case Reading(_) => 7
    case Statting(_) => 6
    case Comparing(_) => 5
    case Acting(_, _) => 4
    case Fetching(_) => 3
    case Fetched(_, _) => 2
    case Renamed(_, _, _) => 1
    case Answered(_, _, _) => 0
  }

  /** Every download comes to an answer: until then it can always go on, and every step brings it closer. */
  lemma DownloadEnds(w: World, pc: DownPc, p: DownStep)
    ensures !pc.Answered? ==> PullEnabled(w, pc, NextDownStep(pc))
    ensures PullEnabled(w, pc, p) ==> DownRank(Pull(w, pc, p).1) < DownRank(pc)
  {
  }

  // ---- from the watcher to the attempt ----

  /** A watcher event on a path that is not queued leaves no write unnoticed, and queues the path exactly if
      the file is then marked pending. */
  lemma EventSettles(s: State)
    ensures var w := ApplyDaemon(s, WatchEvent).w;
      && w.slot.file == s.w.slot.file
      && (s.w.queued ==> w == s.w)
      && (!s.w.queued ==>
          && !Unnoticed(w.slot)
          && (w.queued <==> w.slot.file.Some? && w.slot.meta.Some? && w.slot.meta.value.pending))
  {
    MarkPendingSettles(s.w.slot, s.w.now);
  }

  /** The scan queues a path exactly if its metadata does not cover its file, and then guards it. */
  lemma ScanQueuesIff(w: World)
    ensures var w' := Scanned(w);
      && w'.slot.file == w.slot.file
      && (w'.queued <==> w.queued || (w.slot.file.Some? && !Covered(w.slot)))
      && (w.slot.file.Some? && !Covered(w.slot) ==> LocalAuthoritative(w'.slot))
      && (w.slot.file.None? || Covered(w.slot) ==> w'.slot == w.slot)
  {
  }

  /** A queued path that is free gets its attempt. */
  lemma QueuedIsAttempted(s: State, g: nat) returns (steps: seq<Step>)
    requires s.w.queued && s.c.sh.blocked == 0 && s.c.sh.upload.None? && g !in s.c.threads
    ensures Valid(s, steps)
    ensures var t := Exec(s, steps); t.w == s.w.(queued := false) && Free(t, g) && t.c.threads[g].pc.Begin?
  {
    var trigger := Upload(g, Trigger(true));
    var s1 := Apply(s, Daemon(Dispatch));
    assert [trigger] + [] == [trigger];
    Prepend(s1, trigger, []);
    Prepend(s, Daemon(Dispatch), [trigger]);
    steps := [Daemon(Dispatch)] + [trigger];
  }

  /** A request gets the path queued. */
  lemma RequestIsQueued(s: State) returns (steps: seq<Step>)
    ensures Valid(s, steps)
    ensures Exec(s, steps) == s.(w := s.w.(requested := false, queued := true))
  {
    var s1 := Apply(s, Daemon(Request));
    assert [Daemon(TakeRequest)] + [] == [Daemon(TakeRequest)];
    Prepend(s1, Daemon(TakeRequest), []);
    Prepend(s, Daemon(Request), [Daemon(TakeRequest)]);
    steps := [Daemon(Request)] + [Daemon(TakeRequest)];
  }

  /** And so does an armed timer that fires, unless the request channel is full. */
  lemma TimerIsQueued(s: State) returns (steps: seq<Step>)
    requires s.c.sh.timer
    ensures Valid(s, steps)
    ensures var t := Exec(s, steps); t.w == s.w.(requested := false, queued := true) && !t.c.sh.timer
  {
    var s1 := Apply(s, Daemon(RetryFires(true)));
    assert [Daemon(TakeRequest)] + [] == [Daemon(TakeRequest)];
    Prepend(s1, Daemon(TakeRequest), []);
    Prepend(s, Daemon(RetryFires(true)), [Daemon(TakeRequest)]);
    steps := [Daemon(RetryFires(true))] + [Daemon(TakeRequest)];
  }

  /** A copy, rename or upload leaves the key's object, file and metadata saying the same. */
  lemma StoreSyncs(s: State, o: Object, f: File)
    requires WorldInv(s.w) && DaemonEnabled(s, Store(o, f))
    ensures var w := ApplyDaemon(s, Store(o, f)).w; Recorded(w, f, o.etag) && w.s3 == Some(o) && o.data == f.data
  {
  }
}
