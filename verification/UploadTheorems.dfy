/** The promises of blockUploads and uploadNewFile, over whole runs. */
module UploadTheorems {
  import opened Metadata
  import opened Protocol
  import opened Coordination

  lemma {:induction false} RunKeepsCoord(s: State, steps: seq<Step>)
    requires CoordInv(s.c) && Valid(s, steps)
    ensures CoordInv(Exec(s, steps).c)
    decreases |steps|
  {
    if steps != [] {
      StepKeepsCoord(s, steps[0]);
      RunKeepsCoord(Apply(s, steps[0]), steps[1..]);
    }
  }

  /** The upload protocol invariant holds in every reachable state. */
  lemma ProtocolInvariant(s: State, steps: seq<Step>)
    requires Init(s) && Valid(s, steps)
    ensures CoordInv(Exec(s, steps).c)
  {
    assert CoordInv(s.c);
    RunKeepsCoord(s, steps);
  }

  /** Read off: two active uploads are one, and a handler past its wait excludes all of them. */
  lemma MutualExclusion(s: State, steps: seq<Step>, g: nat, h: nat, b: nat)
    requires Init(s) && Valid(s, steps)
    requires var c := Exec(s, steps).c; Active(c, g)
    ensures var c := Exec(s, steps).c; Active(c, h) ==> g == h
    ensures var c := Exec(s, steps).c; b in c.blockers ==>
      c.blockers[b] == Waiting(g) && CanceledUpload(Exec(s, steps), g)
  {
    ProtocolInvariant(s, steps);
    var c := Exec(s, steps).c;
    if b in c.blockers { BlockersCount(c, b); }
  }

  // ---- waiting on a canceled upload ends ----

  /** The most own steps a canceled goroutine has left. */
  function Rank(pc: Pc): nat {
    match pc
    case Begin => 14
    case Opening => 13
    case Publishing(_) => 12
    case ReadingMeta(_) => 11
    case Heading(_) => 10
    case Reconciling(_, _, _) => 9
    case Restarting(_) => 8
    case Putting(_) => 7
    case InPut(_, landed) => if landed.None? then 6 else 5
    case Checking(_, _) => 4
    case Marking(_, _) => 3
    case Remarking => 2
    case Finishing(_) => 1
    case Exited => 0
  }

  predicate CanceledUpload(s: State, g: nat) { At(s, g) && s.c.sh.states[g].canceled }

  predicate Own(step: Step, g: nat) { step.Upload? && step.g == g }

  function OwnSteps(steps: seq<Step>, g: nat): nat {
    if steps == [] then 0 else (if Own(steps[0], g) then 1 else 0) + OwnSteps(steps[1..], g)
  }

  /** Within an attempt every step goes down, whether canceled or not. */
  lemma MoveDescends(w: World, t: Thread, u: UploadStep)
    requires MoveEnabled(w, t.pc, u) && IsMove(u) && !Peeks(u)
    ensures Rank(Move(w, t, u).1.pc) < Rank(t.pc)
  {
  }

  lemma OwnStepDescends(s: State, g: nat, u: UploadStep)
    requires Enabled(s, Upload(g, u)) && CanceledUpload(s, g)
    ensures CanceledUpload(Apply(s, Upload(g, u)), g)
    ensures Rank(Apply(s, Upload(g, u)).c.threads[g].pc) < Rank(s.c.threads[g].pc)
  {
    if IsMove(u) && !Peeks(u) { MoveDescends(s.w, s.c.threads[g], u); }
  }

  lemma OtherEndSpares(s: State, h: nat, g: nat)
    requires At(s, h) && s.c.threads[h].pc.Finishing? && CanceledUpload(s, g) && h != g
    ensures CanceledUpload(Ended(s, h), g) && Ended(s, h).c.threads[g] == s.c.threads[g]
  {
  }

  lemma OtherTriggerSpares(s: State, h: nat, delivered: bool, g: nat)
    requires CanceledUpload(s, g) && h != g
    requires s.c.sh.upload.Some? ==> s.c.sh.upload.value in s.c.sh.states
    ensures CanceledUpload(Triggered(s, h, delivered), g) && Triggered(s, h, delivered).c.threads[g] == s.c.threads[g]
  {
  }

  lemma OtherUploadSpares(s: State, h: nat, u: UploadStep, g: nat)
    requires Enabled(s, Upload(h, u)) && CanceledUpload(s, g) && h != g
    ensures CanceledUpload(Apply(s, Upload(h, u)), g)
    ensures Apply(s, Upload(h, u)).c.threads[g] == s.c.threads[g]
  {
    if u.Trigger? {
      OtherTriggerSpares(s, h, u.delivered, g);
    } else if u.Finish? {
      OtherEndSpares(s, h, g);
    } else if IsMove(u) {
      MoveLeavesRest(s, h, u);
    }
  }

  lemma OtherHandlerSpares(s: State, b: nat, k: HandlerStep, g: nat)
    requires Enabled(s, Handler(b, k)) && CanceledUpload(s, g)
    ensures CanceledUpload(Apply(s, Handler(b, k)), g)
    ensures Apply(s, Handler(b, k)).c.threads == s.c.threads
  {
  }

  lemma OtherStepSpares(s: State, step: Step, g: nat)
    requires Enabled(s, step) && step != Env(Crash) && CanceledUpload(s, g) && !Own(step, g)
    ensures CanceledUpload(Apply(s, step), g)
    ensures Apply(s, step).c.threads[g] == s.c.threads[g]
  {
    match step {
      case Env(_) =>
      case Daemon(d) => DaemonLeavesCoord(s, d);
      case Down(_, _) =>
      case Upload(h, u) => OtherUploadSpares(s, h, u, g);
      case Handler(b, k) => OtherHandlerSpares(s, b, k, g);
    }
  }

  /** In any run, however other goroutines and handlers interleave, a canceled upload takes at most
      Rank more steps of its own: at most the rest of one uploadOnce, or one it was about to start. */
  lemma {:induction false} WaitingEnds(s: State, steps: seq<Step>, g: nat)
    requires CoordInv(s.c) && Valid(s, steps) && CanceledUpload(s, g)
    requires forall i :: 0 <= i < |steps| ==> steps[i] != Env(Crash)
    ensures CanceledUpload(Exec(s, steps), g)
    ensures OwnSteps(steps, g) + Rank(Exec(s, steps).c.threads[g].pc) <= Rank(s.c.threads[g].pc) <= 14
    decreases |steps|
  {
    if steps != [] {
      var s' := Apply(s, steps[0]);
      StepKeepsCoord(s, steps[0]);
      if Own(steps[0], g) { OwnStepDescends(s, g, steps[0].u); } else { OtherStepSpares(s, steps[0], g); }
      WaitingEnds(s', steps[1..], g);
    }
  }

  // ---- every upload ends, and every attempt is paid for ----

  /** The most own steps a goroutine has left unless it is triggered again: the rest of this attempt, and
      all of another one if a rerun is scheduled. */
  function Budget(c: Coord, g: nat): nat
    requires At'(c, g)
  {
    Rank(c.threads[g].pc) + if c.sh.states[g].rerun && Active(c, g) then 15 else 0
  }

  function Triggers(steps: seq<Step>): nat {
    if steps == [] then 0 else (if steps[0].Upload? && steps[0].u.Trigger? then 1 else 0) + Triggers(steps[1..])
  }

  function Starts(steps: seq<Step>): nat {
    if steps == [] then 0 else (if steps[0].Upload? && steps[0].u.Start? then 1 else 0) + Starts(steps[1..])
  }

  lemma OwnStepSpends(s: State, g: nat, u: UploadStep)
    requires CoordInv(s.c) && Enabled(s, Upload(g, u)) && !u.Trigger?
    ensures var c' := Apply(s, Upload(g, u)).c; At'(c', g) && Budget(c', g) < Budget(s.c, g)
  {
    if u.Finish? {
      RoundEnds(s, g);
    } else if IsMove(u) && !Peeks(u) {
      MoveLeavesRest(s, g, u);
      MoveDescends(s.w, s.c.threads[g], u);
    } else {
      LockedStepSpends(s, g, u);
    }
  }

  lemma LockedStepSpends(s: State, g: nat, u: UploadStep)
    requires Enabled(s, Upload(g, u)) && (u.Start? || u.Publish? || Peeks(u))
    ensures var c' := Apply(s, Upload(g, u)).c;
      At'(c', g) && Rank(c'.threads[g].pc) < Rank(s.c.threads[g].pc) && c'.sh.states[g].rerun == s.c.sh.states[g].rerun
  {
  }

  lemma TriggerSpends(s: State, h: nat, delivered: bool, g: nat)
    requires CoordInv(s.c) && At(s, g) && h !in s.c.threads
    requires s.c.sh.upload.Some? ==> s.c.sh.upload.value in s.c.sh.states
    ensures var c' := Triggered(s, h, delivered).c;
      At'(c', g) && c'.threads[g] == s.c.threads[g] && Budget(c', g) <= Budget(s.c, g) + 15
  {
  }

  lemma OtherStepSpends(s: State, step: Step, g: nat)
    requires CoordInv(s.c) && Enabled(s, step) && step != Env(Crash) && At(s, g)
    requires !Own(step, g) && !(step.Upload? && step.u.Trigger?)
    ensures var c' := Apply(s, step).c;
      At'(c', g) && c'.threads[g] == s.c.threads[g] && Budget(c', g) <= Budget(s.c, g)
  {
    match step {
      case Env(_) =>
      case Daemon(d) => DaemonLeavesCoord(s, d);
      case Down(_, _) =>
      case Upload(h, u) => OtherUploadSpends(s, h, u, g);
      case Handler(b, k) => OtherHandlerSpends(s, b, k, g);
    }
  }

  lemma OtherUploadSpends(s: State, h: nat, u: UploadStep, g: nat)
    requires Enabled(s, Upload(h, u)) && At(s, g) && h != g && !u.Trigger?
    ensures var c' := Apply(s, Upload(h, u)).c;
      At'(c', g) && c'.threads[g] == s.c.threads[g] && c'.sh.states[g] == s.c.sh.states[g]
  {
    if IsMove(u) { MoveLeavesRest(s, h, u); }
  }

  lemma OtherHandlerSpends(s: State, b: nat, k: HandlerStep, g: nat)
    requires Enabled(s, Handler(b, k)) && At(s, g)
    ensures var c' := Apply(s, Handler(b, k)).c;
      At'(c', g) && c'.threads == s.c.threads && (c'.sh.states[g].rerun ==> s.c.sh.states[g].rerun)
  {
  }

  lemma StepSpends(s: State, step: Step, g: nat)
    requires CoordInv(s.c) && Enabled(s, step) && step != Env(Crash) && At(s, g)
    ensures var c' := Apply(s, step).c;
      && At'(c', g)
      && Budget(c', g) + (if Own(step, g) then 1 else 0) <= Budget(s.c, g) + 15 * Triggers([step])
  {
    assert [step][1..] == [];
    if step.Upload? && step.u.Trigger? {
      TriggerSpends(s, step.g, step.u.delivered, g);
    } else if Own(step, g) {
      OwnStepSpends(s, g, step.u);
    } else {
      OtherStepSpends(s, step, g);
    }
  }

  /** In any crash-free run, canceled or not, an upload takes at most the steps it had left, and fifteen
      more (one attempt) for each trigger: without triggers it comes to its end. */
  lemma {:induction false} UploadEnds(s: State, steps: seq<Step>, g: nat)
    requires CoordInv(s.c) && Valid(s, steps) && At(s, g)
    requires forall i :: 0 <= i < |steps| ==> steps[i] != Env(Crash)
    ensures At(Exec(s, steps), g)
    ensures OwnSteps(steps, g) + Budget(Exec(s, steps).c, g) <= Budget(s.c, g) + 15 * Triggers(steps)
    decreases |steps|
  {
    if steps != [] {
      var s' := Apply(s, steps[0]);
      StepSpends(s, steps[0], g);
      StepKeepsCoord(s, steps[0]);
      UploadEnds(s', steps[1..], g);
      OneMoreStep(steps, g);
    }
  }

  lemma OneMoreStep(steps: seq<Step>, g: nat)
    requires steps != []
    ensures OwnSteps(steps, g) == (if Own(steps[0], g) then 1 else 0) + OwnSteps(steps[1..], g)
    ensures Triggers(steps) == Triggers([steps[0]]) + Triggers(steps[1..])
  {
    assert [steps[0]][1..] == [];
  }

  lemma BudgetBounded(c: Coord, g: nat)
    requires At'(c, g)
    ensures Budget(c, g) <= 29
  {
  }

  /** The attempts that accepted triggers still have coming. */
  function Owed(c: Coord): nat {
    if c.sh.upload.Some? && At'(c, c.sh.upload.value) then
      var g := c.sh.upload.value;
      (if c.threads[g].pc.Begin? then 1 else 0) + (if c.sh.states[g].rerun then 1 else 0)
    else 0
  }

  lemma UploadStepIsPaid(s: State, g: nat, u: UploadStep)
    requires CoordInv(s.c) && Enabled(s, Upload(g, u))
    ensures var c' := Apply(s, Upload(g, u)).c;
      Owed(c') + (if u.Start? then 1 else 0) + s.c.accepted <= Owed(s.c) + c'.accepted
  {
    if !u.Trigger? {
      assert Active(s.c, g);
      if IsMove(u) { MoveLeavesRest(s, g, u); }
    }
  }

  lemma StepIsPaid(s: State, step: Step)
    requires CoordInv(s.c) && Enabled(s, step) && step != Env(Crash)
    ensures var c' := Apply(s, step).c; Owed(c') + Starts([step]) + s.c.accepted <= Owed(s.c) + c'.accepted
  {
    assert [step][1..] == [];
    match step {
      case Env(_) =>
      case Daemon(d) => DaemonLeavesCoord(s, d);
      case Down(_, _) =>
      case Upload(g, u) => UploadStepIsPaid(s, g, u);
      case Handler(b, k) => HandlerStepIsPaid(s, b, k);
    }
  }

  lemma HandlerStepIsPaid(s: State, b: nat, k: HandlerStep)
    requires CoordInv(s.c) && Enabled(s, Handler(b, k))
    ensures var c' := Apply(s, Handler(b, k)).c; Owed(c') <= Owed(s.c) && c'.accepted == s.c.accepted
  {
  }

  lemma {:induction false} RunIsPaid(s: State, steps: seq<Step>)
    requires CoordInv(s.c) && Valid(s, steps)
    requires forall i :: 0 <= i < |steps| ==> steps[i] != Env(Crash)
    ensures var c := Exec(s, steps).c; Owed(c) + Starts(steps) + s.c.accepted <= Owed(s.c) + c.accepted
    decreases |steps|
  {
    if steps != [] {
      StepIsPaid(s, steps[0]);
      StepKeepsCoord(s, steps[0]);
      assert [steps[0]][1..] == [];
      RunIsPaid(Apply(s, steps[0]), steps[1..]);
    }
  }

  /** No attempt without a trigger: in any crash-free run there are at most as many as accepted triggers,
      and at most as many of those as triggers. */
  lemma AttemptsPaidFor(s: State, steps: seq<Step>)
    requires Init(s) && Valid(s, steps)
    requires forall i :: 0 <= i < |steps| ==> steps[i] != Env(Crash)
    ensures Starts(steps) <= Exec(s, steps).c.accepted <= Triggers(steps)
  {
    assert CoordInv(s.c);
    RunIsPaid(s, steps);
    RunAccepts(s, steps);
  }

  lemma StepAccepts(s: State, step: Step)
    requires Enabled(s, step)
    ensures Apply(s, step).c.accepted <= s.c.accepted + Triggers([step])
  {
    assert [step][1..] == [];
    if step.Upload? && IsMove(step.u) { MoveLeavesRest(s, step.g, step.u); }
    if step.Daemon? { DaemonLeavesCoord(s, step.d); }
  }

  lemma {:induction false} RunAccepts(s: State, steps: seq<Step>)
    requires Valid(s, steps)
    ensures Exec(s, steps).c.accepted <= s.c.accepted + Triggers(steps)
    decreases |steps|
  {
    if steps != [] {
      StepAccepts(s, steps[0]);
      assert [steps[0]][1..] == [];
      RunAccepts(Apply(s, steps[0]), steps[1..]);
    }
  }

  // ---- failed attempts are retried ----

  /** PutObject fails, or HEAD could not be reached. */
  predicate CallFails(s: State, g: nat, u: UploadStep)
    requires Enabled(s, Upload(g, u)) && !u.Trigger?
  {
    || u == PutReturns(false)
    || (u.Reconcile? && s.c.threads[g].pc.verdict.LocalUnknown?)
    || (u.StartPut? && s.c.threads[g].attempt in s.c.sh.states[g].ended)
  }

  /** An attempt asks for a retry exactly if an S3 call failed. */
  lemma RetryIffCallFails(s: State, g: nat, u: UploadStep)
    requires Enabled(s, Upload(g, u)) && !u.Trigger?
    ensures var pc := Apply(s, Upload(g, u)).c.threads[g].pc;
      && (CallFails(s, g, u) ==> pc.Finishing?)
      && (pc.Finishing? ==> (pc.retry <==> CallFails(s, g, u)))
  {
  }

  /** A HEAD counts as failed exactly if S3 was not reached. */
  lemma UnreachedHeadFails(s: State, g: nat, reached: bool)
    requires Enabled(s, Upload(g, HeadReturns(reached)))
    ensures var s' := Apply(s, Upload(g, HeadReturns(reached)));
      Enabled(s', Upload(g, Reconcile)) && (CallFails(s', g, Reconcile) <==> !reached)
  {
  }

  /** How a round ends: with another attempt exactly if one is scheduled; else it is over, with one more
      failure and the timer armed exactly if it asked for a retry, and otherwise with neither. */
  lemma RoundEnds(s: State, g: nat)
    requires CoordInv(s.c) && Enabled(s, Upload(g, Finish))
    ensures var c := Apply(s, Upload(g, Finish)).c;
      var st := s.c.sh.states[g];
      if st.rerun then c.threads[g].pc.Begin? && !c.sh.states[g].rerun && c.sh.upload == Some(g)
      else
        && c.threads[g].pc.Exited? && c.sh.upload == None
        && (if s.c.threads[g].pc.retry && !st.canceled then c.sh.timer && c.sh.retries == s.c.sh.retries + 1
            else !c.sh.timer && c.sh.retries == 0)
  {
    assert Active(s.c, g);
  }

  /** g's round ends with another attempt, or with one more failure counted and the timer armed. */
  predicate RetriedIn(s: State, steps: seq<Step>, g: nat)
    requires Valid(s, steps)
    decreases |steps|
  {
    steps != [] &&
    (if steps[0] == Upload(g, Finish) then
       var c := Apply(s, steps[0]).c;
       g in c.threads && (c.threads[g].pc.Begin? || (c.sh.timer && c.sh.retries == s.c.sh.retries + 1))
     else RetriedIn(Apply(s, steps[0]), steps[1..], g))
  }

  lemma OtherStepLeavesThread(s: State, step: Step, g: nat)
    requires CoordInv(s.c) && Enabled(s, step) && step != Env(Crash) && At(s, g) && !Own(step, g)
    ensures At(Apply(s, step), g) && Apply(s, step).c.threads[g] == s.c.threads[g]
  {
    if step.Upload? && step.u.Trigger? { TriggerSpends(s, step.g, step.u.delivered, g); }
    else { OtherStepSpends(s, step, g); }
  }

  lemma FinishingFinishes(s: State, step: Step, g: nat)
    requires Enabled(s, step) && At(s, g) && s.c.threads[g].pc.Finishing? && Own(step, g)
    ensures step == Upload(g, Finish)
  {
  }

  lemma {:induction false} FailedIsRetried(s: State, steps: seq<Step>, g: nat)
    requires CoordInv(s.c) && Valid(s, steps) && At(s, g) && s.c.threads[g].pc == Finishing(true)
    requires forall i :: 0 <= i < |steps| ==> steps[i] != Env(Crash)
    ensures At(Exec(s, steps), g)
    ensures RetriedIn(s, steps, g) || CanceledIn(s, steps, g) || Exec(s, steps).c.threads[g].pc == Finishing(true)
    decreases |steps|
  {
    if steps != [] {
      StepKeepsCoord(s, steps[0]);
      if steps[0] == Upload(g, Finish) {
        RoundEnds(s, g);
        UploadEnds(s, steps, g);
      } else {
        if Own(steps[0], g) { FinishingFinishes(s, steps[0], g); }
        OtherStepLeavesThread(s, steps[0], g);
        FailedIsRetried(Apply(s, steps[0]), steps[1..], g);
      }
    }
  }

  predicate CanceledIn(s: State, steps: seq<Step>, g: nat)
    requires Valid(s, steps)
    decreases |steps|
  {
    CanceledUpload(s, g) || (steps != [] && CanceledIn(Apply(s, steps[0]), steps[1..], g))
  }

  /** In any crash-free run from a failed S3 call on, the attempt is followed by another one, or by an armed
      timer and one more failure, unless it is canceled or has not come to its end yet. */
  lemma FailedCallIsRetried(s: State, g: nat, u: UploadStep, rest: seq<Step>)
    requires CoordInv(s.c) && Enabled(s, Upload(g, u)) && !u.Trigger? && CallFails(s, g, u)
    requires Valid(Apply(s, Upload(g, u)), rest)
    requires forall i :: 0 <= i < |rest| ==> rest[i] != Env(Crash)
    ensures var s' := Apply(s, Upload(g, u));
      && At(Exec(s', rest), g)
      && (RetriedIn(s', rest, g) || CanceledIn(s', rest, g) || Exec(s', rest).c.threads[g].pc == Finishing(true))
  {
    StepKeepsCoord(s, Upload(g, u));
    RetryIffCallFails(s, g, u);
    FailedIsRetried(Apply(s, Upload(g, u)), rest, g);
  }

  /** A canceled upload that has not come to its mark never records anything. */
  lemma CanceledStepNeverMarks(s: State, step: Step, g: nat)
    requires CoordInv(s.c) && Enabled(s, step) && step != Env(Crash)
    requires CanceledUpload(s, g) && !s.c.threads[g].pc.Marking? && !s.c.threads[g].pc.Remarking?
    ensures !(Own(step, g) && (step.u.Mark? || step.u.Remark?))
    ensures var s' := Apply(s, step);
      CanceledUpload(s', g) && !s'.c.threads[g].pc.Marking? && !s'.c.threads[g].pc.Remarking?
  {
    if Own(step, g) { OwnStepDescends(s, g, step.u); } else { OtherStepSpares(s, step, g); }
  }

  lemma {:induction false} CanceledNeverMarks(s: State, steps: seq<Step>, g: nat)
    requires CoordInv(s.c) && Valid(s, steps)
    requires CanceledUpload(s, g) && !s.c.threads[g].pc.Marking? && !s.c.threads[g].pc.Remarking?
    requires forall i :: 0 <= i < |steps| ==> steps[i] != Env(Crash)
    ensures forall i :: 0 <= i < |steps| ==> !(Own(steps[i], g) && (steps[i].u.Mark? || steps[i].u.Remark?))
    decreases |steps|
  {
    if steps != [] {
      CanceledStepNeverMarks(s, steps[0], g);
      StepKeepsCoord(s, steps[0]);
      CanceledNeverMarks(Apply(s, steps[0]), steps[1..], g);
    }
  }

  /** The step an active goroutine can take whatever the others do. */
  function NextStep(pc: Pc): UploadStep {
    match pc
    case Begin => Start
    case Opening => Open(false)
    case Publishing(_) => Publish
    case ReadingMeta(_) => ReadMeta
    case Heading(_) => HeadReturns(false)
    case Reconciling(_, _, _) => Reconcile
    case Restarting(_) => Restart
    case Putting(_) => StartPut
    case InPut(_, _) => PutReturns(false)
    case Checking(_, _) => Check
    case Marking(_, _) => Mark
    case Remarking => Remark
    case Finishing(_) => Finish
    case Exited => Finish
  }

  /** No handler waits in vain: its upload is done, so it can go on, or canceled and able to move. */
  lemma WaiterProgresses(s: State, b: nat)
    requires CoordInv(s.c) && b in s.c.blockers && s.c.blockers[b].Waiting?
    ensures var g := s.c.blockers[b].g;
      if Active(s.c, g) then CanceledUpload(s, g) && Enabled(s, Upload(g, NextStep(s.c.threads[g].pc)))
      else Enabled(s, Handler(b, Waited))
  {
    BlockersCount(s.c, b);
  }

  lemma BlockersCount(c: Coord, b: nat)
    requires CoordInv(c) && b in c.blockers
    ensures c.sh.blocked > 0
  {
    assert b in c.blockers.Keys;
    assert |c.blockers.Keys| > 0;
  }

  /** Whichever side of the publication the blocker arrives on, and even when the stored cancel
      function is an earlier round's: a PutObject of a canceled upload has an ended context. */
  lemma CancellationNotMissed(s: State, steps: seq<Step>, g: nat)
    requires Init(s) && Valid(s, steps)
    requires CanceledUpload(Exec(s, steps), g)
    requires var pc := Exec(s, steps).c.threads[g].pc; pc.Putting? || pc.InPut?
    ensures var c := Exec(s, steps).c; c.threads[g].attempt in c.sh.states[g].ended
  {
    ProtocolInvariant(s, steps);
  }

  lemma CanceledStepNeverLands(s: State, step: Step, g: nat)
    requires CoordInv(s.c) && Enabled(s, step) && step != Env(Crash)
    requires CanceledUpload(s, g) && !s.c.threads[g].pc.InPut?
    ensures !(Own(step, g) && step.u.Land?)
    ensures CanceledUpload(Apply(s, step), g) && !Apply(s, step).c.threads[g].pc.InPut?
  {
    if Own(step, g) {
      OwnStepDescends(s, g, step.u);
      if IsMove(step.u) && !Peeks(step.u) { MoveStartsNoPut(s.w, s.c.threads[g], step.u); }
    } else {
      OtherStepSpares(s, step, g);
    }
  }

  lemma MoveStartsNoPut(w: World, t: Thread, u: UploadStep)
    requires MoveEnabled(w, t.pc, u) && IsMove(u) && !Peeks(u) && !t.pc.InPut?
    ensures !Move(w, t, u).1.pc.InPut?
  {
  }

  /** A canceled upload that has not begun its PutObject never puts an object, in any run. */
  lemma {:induction false} CanceledNeverLands(s: State, steps: seq<Step>, g: nat)
    requires CoordInv(s.c) && Valid(s, steps) && CanceledUpload(s, g) && !s.c.threads[g].pc.InPut?
    requires forall i :: 0 <= i < |steps| ==> steps[i] != Env(Crash)
    ensures forall i :: 0 <= i < |steps| ==> !(Own(steps[i], g) && steps[i].u.Land?)
    decreases |steps|
  {
    if steps != [] {
      CanceledStepNeverLands(s, steps[0], g);
      StepKeepsCoord(s, steps[0]);
      CanceledNeverLands(Apply(s, steps[0]), steps[1..], g);
    }
  }

  // ---- no trigger is lost ----

  predicate StartsOrCuts(step: Step) {
    (step.Upload? && step.u.Start?) || (step.Handler? && step.k.Block?) || step == Env(Crash)
  }

  /** An attempt starts, or a blocker or a crash comes in. */
  predicate StartsOrCancels(steps: seq<Step>) {
    exists i :: 0 <= i < |steps| && StartsOrCuts(steps[i])
  }

  lemma QuietStep(s: State, step: Step)
    requires Enabled(s, step) && !StartsOrCuts(step)
    ensures var c := Apply(s, step).c; c.served == s.c.served && c.waived == s.c.waived && c.accepted >= s.c.accepted
  {
    if step.Upload? && IsMove(step.u) { MoveLeavesRest(s, step.g, step.u); }
    if step.Daemon? { DaemonLeavesCoord(s, step.d); }
  }

  lemma {:induction false} QuietRun(s: State, steps: seq<Step>)
    requires Valid(s, steps) && !StartsOrCancels(steps)
    ensures var c := Exec(s, steps).c; c.served == s.c.served && c.waived == s.c.waived && c.accepted >= s.c.accepted
    decreases |steps|
  {
    if steps != [] {
      assert !StartsOrCuts(steps[0]);
      QuietStep(s, steps[0]);
      assert forall i :: 0 <= i < |steps[1..]| ==> steps[1..][i] == steps[i + 1];
      QuietRun(Apply(s, steps[0]), steps[1..]);
    }
  }

  /** A trigger on a reachable state is handed back, which happens only under a block, or by the
      time no upload is left an attempt has started after it (or a blocker or crash cut it off). */
  lemma NoTriggerLost(s: State, before: seq<Step>, g: nat, delivered: bool, after: seq<Step>)
    requires Init(s) && Valid(s, before)
    requires var t := Exec(s, before);
      Enabled(t, Upload(g, Trigger(delivered))) && Valid(Apply(t, Upload(g, Trigger(delivered))), after)
    ensures var t := Exec(s, before);
      var end := Exec(Apply(t, Upload(g, Trigger(delivered))), after);
      || (t.c.blockers != map[] && Apply(t, Upload(g, Trigger(delivered))).w.requested == (t.w.requested || delivered))
      || end.c.sh.upload.Some?
      || StartsOrCancels(after)
  {
    ProtocolInvariant(s, before);
    var t := Exec(s, before);
    if t.c.sh.blocked == 0 {
      var t' := Apply(t, Upload(g, Trigger(delivered)));
      StepKeepsCoord(t, Upload(g, Trigger(delivered)));
      RunKeepsCoord(t', after);
      if !StartsOrCancels(after) { QuietRun(t', after); }
    }
  }
}
