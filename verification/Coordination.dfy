/** What every interleaving of triggers, uploads, retries and blockers keeps. */
module Coordination {
  import opened Metadata
  import opened Protocol
  import S = Sections

  predicate Active(c: Coord, g: nat) { g in c.threads && !c.threads[g].pc.Exited? }

  /** At most one upload is active, and uploads[path] names it from registration to done. */
  ghost predicate OneUpload(c: Coord) {
    && c.sh.states.Keys == c.threads.Keys
    && (c.sh.upload.Some? ==> Active(c, c.sh.upload.value))
    && forall g: nat :: Active(c, g) ==> c.sh.upload == Some(g)
  }

  /** Blockers are counted; one past its wait has the path to itself; an upload is canceled, with
      no rerun scheduled, exactly while someone blocks the path. */
  ghost predicate Exclusion(c: Coord) {
    && c.sh.blocked == |c.blockers|
    && (forall b :: b in c.blockers && c.blockers[b].Waiting? ==>
      c.blockers[b].g in c.threads && (c.sh.upload == None || c.sh.upload == Some(c.blockers[b].g)))
    && (forall b :: b in c.blockers && !c.blockers[b].Waiting? ==> c.sh.upload == None)
    && (c.sh.upload.Some? && c.sh.upload.value in c.sh.states ==>
      var st := c.sh.states[c.sh.upload.value];
      (st.canceled <==> c.sh.blocked > 0) && (st.canceled ==> !st.rerun))
  }

  /** The attempt works under a published context: from here on a blocker's cancel ends it. */
  predicate Published(pc: Pc) {
    !pc.Begin? && !pc.Opening? && !pc.Publishing? && !pc.Finishing? && !pc.Exited?
  }

  ghost predicate ContextInv(c: Coord) {
    forall g :: g in c.threads && g in c.sh.states ==>
      && (c.sh.states[g].cancel.Some? ==> c.sh.states[g].cancel.value <= c.threads[g].attempt)
      && (!c.sh.states[g].canceled ==> c.sh.states[g].ended == {})
      && (Published(c.threads[g].pc) ==>
        && c.sh.states[g].cancel == Some(c.threads[g].attempt)
        && (c.sh.states[g].canceled ==> c.threads[g].attempt in c.sh.states[g].ended))
  }

  /** An accepted trigger not yet followed by an attempt or a cancellation has one coming. */
  ghost predicate TriggersKept(c: Coord) {
    && c.served <= c.accepted && c.waived <= c.accepted
    && (c.served < c.accepted && c.waived < c.accepted ==>
      && c.sh.upload.Some? && At'(c, c.sh.upload.value)
      && !c.sh.states[c.sh.upload.value].canceled
      && (c.sh.states[c.sh.upload.value].rerun || c.threads[c.sh.upload.value].pc.Begin?))
  }

  predicate At'(c: Coord, g: nat) { g in c.threads && g in c.sh.states }

  /** How many runs failed since the last one that did not. */
  function FailuresInARow(runs: Outcomes): nat {
    if runs.NoRun? || !runs.last.Failed? then 0 else 1 + FailuresInARow(runs.before)
  }

  ghost predicate RetriesCount(c: Coord) { c.sh.retries == FailuresInARow(c.runs) }

  ghost predicate CoordInv(c: Coord) {
    OneUpload(c) && Exclusion(c) && ContextInv(c) && TriggersKept(c) && RetriesCount(c)
  }

  // ---- the invariant is kept, one kind of step at a time ----

  /** Moving an active goroutine forward within its attempt. */
  lemma ForwardKeeps(c: Coord, g: nat, t: Thread)
    requires CoordInv(c) && Active(c, g) && t.attempt == c.threads[g].attempt
    requires !t.pc.Begin? && !t.pc.Exited? && (Published(t.pc) ==> Published(c.threads[g].pc))
    requires c.threads[g].pc.Begin? ==> c.served == c.accepted
    ensures CoordInv(c.(threads := c.threads[g := t]))
  {
  }

  lemma TriggerKeepsExclusion(s: State, g: nat, delivered: bool)
    requires CoordInv(s.c) && g !in s.c.threads && s.c.sh.upload != Some(g)
    requires s.c.sh.upload.Some? ==> s.c.sh.upload.value in s.c.sh.states
    ensures var c := Triggered(s, g, delivered).c; OneUpload(c) && Exclusion(c)
  {
  }

  lemma TriggerKeeps(s: State, g: nat, delivered: bool)
    requires CoordInv(s.c) && g !in s.c.threads
    requires s.c.sh.upload.Some? ==> s.c.sh.upload.value in s.c.sh.states
    ensures CoordInv(Triggered(s, g, delivered).c)
  {
    TriggerKeepsExclusion(s, g, delivered);
  }

  lemma PublishKeeps(c: Coord, g: nat, info: FileInfo)
    requires CoordInv(c) && Active(c, g) && g in c.sh.states && c.threads[g].pc == Publishing(info)
    requires !c.sh.states[g].canceled
    ensures var c' := c.(sh := S.Publish(c.sh, g, c.threads[g].attempt).0);
      CoordInv(c'.(threads := c.threads[g := c.threads[g].(pc := ReadingMeta(info))]))
  {
  }

  lemma FinishKeepsUpload(s: State, g: nat)
    requires OneUpload(s.c) && Exclusion(s.c) && At(s, g) && s.c.threads[g].pc.Finishing?
    ensures OneUpload(Ended(s, g).c) && Exclusion(Ended(s, g).c)
  {
    assert Active(s.c, g);
  }

  lemma FinishKeepsContexts(s: State, g: nat)
    requires ContextInv(s.c) && At(s, g) && s.c.threads[g].pc.Finishing?
    ensures ContextInv(Ended(s, g).c)
  {
  }

  lemma FinishKeepsTriggers(s: State, g: nat)
    requires OneUpload(s.c) && TriggersKept(s.c) && At(s, g) && s.c.threads[g].pc.Finishing?
    ensures TriggersKept(Ended(s, g).c)
  {
    assert Active(s.c, g);
  }

  lemma FinishKeepsRetries(s: State, g: nat)
    requires RetriesCount(s.c) && At(s, g) && s.c.threads[g].pc.Finishing?
    ensures RetriesCount(Ended(s, g).c)
  {
  }

  lemma FinishKeeps(s: State, g: nat)
    requires CoordInv(s.c) && At(s, g) && s.c.threads[g].pc.Finishing?
    ensures CoordInv(Ended(s, g).c)
  {
    FinishKeepsUpload(s, g);
    FinishKeepsContexts(s, g);
    FinishKeepsTriggers(s, g);
    FinishKeepsRetries(s, g);
  }

  lemma BlockKeepsExclusion(s: State, b: nat)
    requires OneUpload(s.c) && Exclusion(s.c) && b !in s.c.blockers
    requires s.c.sh.upload.Some? ==> s.c.sh.upload.value in s.c.sh.states
    ensures OneUpload(Blocked(s, b).c) && Exclusion(Blocked(s, b).c)
  {
  }

  lemma BlockKeepsRest(s: State, b: nat)
    requires CoordInv(s.c) && b !in s.c.blockers
    requires s.c.sh.upload.Some? ==> s.c.sh.upload.value in s.c.sh.states
    ensures var c := Blocked(s, b).c; ContextInv(c) && TriggersKept(c) && RetriesCount(c)
  {
  }

  lemma UnblockKeeps(c: Coord, b: nat)
    requires CoordInv(c) && b in c.blockers && !c.blockers[b].Waiting?
    ensures CoordInv(c.(sh := S.Unblock(c.sh), blockers := c.blockers - {b}))
  {
    var bs := c.blockers;
    assert (bs - {b}).Keys == bs.Keys - {b};
    assert |bs - {b}| == |(bs - {b}).Keys| == |bs| - 1;
  }

  lemma BlockerMoveKeeps(c: Coord, b: nat, pc: BlockPc)
    requires CoordInv(c) && b in c.blockers && !pc.Waiting?
    requires c.blockers[b].Waiting? ==> !Active(c, c.blockers[b].g)
    ensures CoordInv(c.(blockers := c.blockers[b := pc]))
  {
  }

  /** The steps of uploadOnce that change no shared variable move only their own thread, and forward. */
  predicate IsMove(u: UploadStep) { !u.Trigger? && !u.Start? && !u.Publish? && !u.Finish? }

  /** Steps that look at the upload's own state without changing it: was it canceled? */
  predicate Peeks(u: UploadStep) { u.Check? || u.StartPut? }

  lemma MoveIsForward(w: World, t: Thread, u: UploadStep)
    requires MoveEnabled(w, t.pc, u) && IsMove(u) && !Peeks(u)
    ensures var t' := Move(w, t, u).1;
      && t'.attempt == t.attempt && !t'.pc.Begin? && !t'.pc.Exited? && (Published(t'.pc) ==> Published(t.pc))
  {
  }

  lemma MoveLeavesRest(s: State, g: nat, u: UploadStep)
    requires Enabled(s, Upload(g, u)) && IsMove(u)
    ensures var c' := Apply(s, Upload(g, u)).c;
      && g in c'.threads && c' == s.c.(threads := s.c.threads[g := c'.threads[g]])
      && c'.threads[g].attempt == s.c.threads[g].attempt
      && !c'.threads[g].pc.Begin? && !c'.threads[g].pc.Exited?
      && (Published(c'.threads[g].pc) ==> Published(s.c.threads[g].pc))
  {
    if !Peeks(u) { MoveIsForward(s.w, s.c.threads[g], u); }
  }

  lemma UploadStepKeeps(s: State, g: nat, u: UploadStep)
    requires CoordInv(s.c) && Enabled(s, Upload(g, u))
    ensures CoordInv(Apply(s, Upload(g, u)).c)
  {
    if u.Trigger? {
      TriggerKeeps(s, g, u.delivered);
    } else {
      var t := s.c.threads[g];
      assert Active(s.c, g);
      if u.Start? {
        ForwardKeeps(s.c.(served := s.c.accepted), g, t.(pc := Opening, started := s.w.now));
      } else if u.Finish? {
        FinishKeeps(s, g);
      } else if u.Publish? {
        if s.c.sh.states[g].canceled {
          ForwardKeeps(s.c, g, t.(pc := Finishing(false)));
        } else {
          PublishKeeps(s.c, g, t.pc.info);
        }
      } else {
        MoveLeavesRest(s, g, u);
        ForwardKeeps(s.c, g, Apply(s, Upload(g, u)).c.threads[g]);
      }
    }
  }

  lemma HandlerStepKeeps(s: State, b: nat, k: HandlerStep)
    requires CoordInv(s.c) && Enabled(s, Handler(b, k))
    ensures CoordInv(Apply(s, Handler(b, k)).c)
  {
    if k.Block? {
      BlockKeepsExclusion(s, b);
      BlockKeepsRest(s, b);
    } else if k.Unblock? {
      UnblockKeeps(s.c, b);
    } else {
      BlockerMoveKeeps(s.c, b, Apply(s, Handler(b, k)).c.blockers[b]);
    }
  }

  lemma DaemonLeavesCoord(s: State, d: DaemonStep)
    requires DaemonEnabled(s, d)
    ensures var c' := ApplyDaemon(s, d).c; c' == s.c || c' == s.c.(sh := s.c.sh.(timer := false))
  {
  }

  /** The upload protocol invariant is inductive over every step. */
  lemma StepKeepsCoord(s: State, step: Step)
    requires CoordInv(s.c) && Enabled(s, step)
    ensures CoordInv(Apply(s, step).c)
  {
    match step {
      case Env(_) =>
      case Daemon(d) => DaemonLeavesCoord(s, d);
      case Down(_, _) =>
      case Upload(g, u) => UploadStepKeeps(s, g, u);
      case Handler(b, k) => HandlerStepKeeps(s, b, k);
    }
  }
}
