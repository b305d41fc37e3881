/** handleResync (internal/api/resync.go): the per-file decision and the walk. */
module Resync {
  import opened Metadata
  import opened Download

  /** The oracles of one file: HEAD, the in-use check, opening the file, the upload (a failed one may
      have taken effect all the same), and the ETag and time S3 gives the new object. */
  datatype ResyncEnv = ResyncEnv(
    force: bool, inUse: bool, reached: bool, openable: bool, putOk: bool, putLands: bool,
    etag: ETag, putTime: Time)

  datatype Outcome = InUse | Same | Uploaded | Conflict | Errored

  datatype ResyncResult = ResyncResult(slot: Slot, put: Option<Object>, outcome: Outcome)

  function ResyncOne(s: Slot, head: HeadResult, env: ResyncEnv, now: Time): ResyncResult
    requires s.file.Some?
  {
    var info := Stat(s.file.value);
    if env.inUse then ResyncResult(s, None, InUse)
    else match head
      case Found(o) =>
        if info.size == |o.data| && (Covers(s.meta, info) || info.mtime <= o.lastModified) then
          ResyncResult(
            if s.meta.None? then WriteMeta(s, InSync(o.etag, o.lastModified, |o.data|), now) else s, None, Same)
        else if info.mtime > o.lastModified || env.force then Push(s, env, now)
        else ResyncResult(s, None, Conflict)
      case _ => Push(s, env, now)
  }

  function Push(s: Slot, env: ResyncEnv, now: Time): ResyncResult
    requires s.file.Some?
  {
    var file := s.file.value;
    if !env.openable then ResyncResult(s, None, Errored)
    else if !env.putOk then
      ResyncResult(s, if env.putLands then Some(Object(file.data, env.etag, env.putTime)) else None, Errored)
    else
      var (slot, accepted) := MarkSynced(s, Stat(file), Some(now), InSync(env.etag, now, |file.data|), now);
      var put := Object(file.data, env.etag, env.putTime);
      ResyncResult(if accepted then slot else MarkPending(slot, now).0, Some(put), Uploaded)
  }

  /** All a resync can do to one key: leave it, backfill metadata, or upload the local bytes, after
      which they are recorded as synced or left marked, or, after an error, left alone. */
  predicate ResyncEffect(s: Slot, head: HeadResult, env: ResyncEnv, now: Time, r: ResyncResult)
    requires s.file.Some?
  {
    var file := s.file.value;
    if r.put.Some? then
      && !env.inUse && (r.outcome.Uploaded? || (r.outcome.Errored? && r.slot == s))
      && r.put.value == Object(file.data, env.etag, env.putTime)
      && (r.outcome.Uploaded? ==>
        r.slot == WriteMeta(s, InSync(env.etag, now, |file.data|), now) || r.slot == MarkPending(s, now).0)
    else
      && !r.outcome.Uploaded?
      && (r.slot == s || (!env.inUse && Backfillable(s, head) && r.slot == Backfilled(s, head, now)))
  }

  lemma ResyncEffects(s: Slot, head: HeadResult, env: ResyncEnv, now: Time)
    requires s.file.Some?
    ensures ResyncEffect(s, head, env, now, ResyncOne(s, head, env, now))
  {
  }

  // ---- the decision table ----

  /** What resync is to upload: the object is missing or cannot be looked up, or is older than a file that is
      not recorded as in sync at its size, or differs in size and is to be overwritten. */
  predicate Wanted(s: Slot, s3: Option<Object>, reached: bool, force: bool)
    requires s.file.Some?
  {
    var f := s.file.value;
    !reached || s3.None? ||
    (if f.mtime > s3.value.lastModified then !(Covered(s) && |f.data| == |s3.value.data|)
     else force && |f.data| != |s3.value.data|)
  }

  /** Every outcome, exactly when. */
  lemma OutcomeIff(s: Slot, s3: Option<Object>, env: ResyncEnv, now: Time)
    requires s.file.Some?
    ensures var r := ResyncOne(s, Head(s3, env.reached), env, now);
      var wanted := !env.inUse && Wanted(s, s3, env.reached, env.force);
      var smaller := s3.Some? && |s.file.value.data| != |s3.value.data|;
      && (r.outcome.InUse? <==> env.inUse)
      && (r.outcome.Uploaded? <==> wanted && env.openable && env.putOk)
      && (r.outcome.Errored? <==> wanted && !(env.openable && env.putOk))
      && (r.outcome.Conflict? <==> !env.inUse && !wanted && smaller)
      && (r.outcome.Same? <==> !env.inUse && !wanted && !smaller)
      && (r.put.Some? <==> wanted && env.openable && (env.putOk || env.putLands))
      && (r.put.Some? ==> r.put.value.data == s.file.value.data && r.put.value.etag == env.etag)
  {
  }

  /** What each outcome leaves: an uploaded file is recorded under its object's ETag, one found the same
      without a record under that object's, and nothing else is touched. */
  lemma OutcomeLeaves(s: Slot, s3: Option<Object>, env: ResyncEnv, now: Time)
    requires s.file.Some? && WellTimed(s, now)
    ensures var r := ResyncOne(s, Head(s3, env.reached), env, now);
      && r.slot.file == s.file
      && (r.outcome.Uploaded? ==> Covered(r.slot) && r.slot.meta.value.etag == env.etag)
      && (r.outcome.Same? && s.meta.None? ==> s3.Some? && Covered(r.slot) && r.slot.meta.value.etag == s3.value.etag)
      && (!r.outcome.Uploaded? && !(r.outcome.Same? && s.meta.None?) ==> r.slot == s)
  {
  }

  // ---- safety ----

  /** Without force, and when HEAD can fail only because the object is missing, an upload never
      replaces an object that is not older than the local file. */
  lemma NeverOverwritesNewer(s: Slot, s3: Option<Object>, env: ResyncEnv, now: Time)
    requires s.file.Some? && !env.force && env.reached
    ensures ResyncOne(s, Head(s3, env.reached), env, now).put.Some? ==>
      s3.None? || s.file.value.mtime > s3.value.lastModified
  {
  }

  /** Exactly when it does: the code takes every HEAD error for "missing in S3", so an unreachable
      HEAD overwrites a newer object just as force does (and force not even at equal size). */
  lemma OverwritesNewerIff(s: Slot, o: Object, env: ResyncEnv, now: Time)
    requires s.file.Some? && s.file.value.mtime <= o.lastModified
    requires !env.inUse && env.openable && (env.putOk || env.putLands)
    ensures ResyncOne(s, Head(Some(o), env.reached), env, now).put.Some?
      <==> !env.reached || (env.force && |s.file.value.data| != |o.data|)
  {
  }

  /** On a file without metadata resync and the watcher's reconciliation agree. */
  lemma AgreesWithReconcile(s: Slot, s3: Option<Object>, env: ResyncEnv, now: Time)
    requires s.file.Some? && s.meta.None? && !env.force && env.reached && !env.inUse && env.openable && env.putOk
    ensures var verdict := ReconcileLocal(Stat(s.file.value), Head(s3, true));
      var r := ResyncOne(s, Head(s3, true), env, now);
      && (r.outcome.Uploaded? <==> verdict.LocalMissing? || verdict.LocalNewer?)
      && (r.outcome.Same? <==> verdict.LocalInSync?)
      && (r.outcome.Conflict? <==> verdict.LocalOlder?)
  {
  }

  /** Nothing on record is dated in the future. */
  predicate WellTimed(s: Slot, now: Time) {
    && (s.file.Some? ==> s.file.value.mtime <= now)
    && (s.meta.Some? ==> s.meta.value.cachedAt <= now)
  }

  function S3After(s3: Option<Object>, r: ResyncResult): Option<Object> {
    if r.put.Some? then r.put else s3
  }

  /** A second pass over a key whose first pass had no error uploads nothing and reports the same. */
  lemma SecondPassIsQuiet(s: Slot, s3: Option<Object>, first: ResyncEnv, second: ResyncEnv, now: Time, later: Time)
    requires s.file.Some? && WellTimed(s, now) && first.reached && second.reached
    requires first.force == second.force && first.inUse == second.inUse
    requires !ResyncOne(s, Head(s3, true), first, now).outcome.Errored?
    ensures var r := ResyncOne(s, Head(s3, true), first, now);
      r.slot.file == s.file &&
      var again := ResyncOne(r.slot, Head(S3After(s3, r), true), second, later);
      && !again.outcome.Uploaded? && !again.outcome.Errored? && again.put.None?
      && (again.outcome.Conflict? <==> r.outcome.Conflict?)
      && again.slot == r.slot
  {
  }
}
