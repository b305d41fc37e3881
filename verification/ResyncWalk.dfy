/** What a resync walk over a whole tree amounts to (internal/api/resync.go). */
module ResyncWalk {
  import opened Metadata
  import opened Text
  import opened FileCache
  import R = Resync

  datatype Tree = Tree(files: map<Loc, File>, metas: map<Loc, FileMeta>, bucket: map<Loc, Object>)

  function ObjectAt(bucket: map<Loc, Object>, l: Loc): Option<Object> {
    if l in bucket then Some(bucket[l]) else None
  }

  predicate Considered(l: Loc) { !EndsWith(l.key, ".tmp") && !EndsWith(l.key, ".meta") }

  function Decision(t: Tree, envs: map<Loc, R.ResyncEnv>, now: Time, l: Loc): R.ResyncResult
    requires l in t.files && l in envs
  {
    R.ResyncOne(SlotOf(t.files, t.metas, l), Head(ObjectAt(t.bucket, l), envs[l].reached), envs[l], now)
  }

  ghost function SlotAfter(t: Tree, walk: seq<Loc>, envs: map<Loc, R.ResyncEnv>, now: Time, l: Loc): Slot {
    if l in walk && Considered(l) && l in t.files && l in envs then Decision(t, envs, now, l).slot
    else SlotOf(t.files, t.metas, l)
  }

  ghost function ObjectAfter(t: Tree, walk: seq<Loc>, envs: map<Loc, R.ResyncEnv>, now: Time, l: Loc): Option<Object> {
    if l in walk && Considered(l) && l in t.files && l in envs then
      R.S3After(ObjectAt(t.bucket, l), Decision(t, envs, now, l))
    else ObjectAt(t.bucket, l)
  }

  function Tally(t: Tree, walk: seq<Loc>, envs: map<Loc, R.ResyncEnv>, now: Time, o: R.Outcome): nat {
    if walk == [] then 0
    else (if Considered(walk[0]) && walk[0] in t.files && walk[0] in envs
      && Decision(t, envs, now, walk[0]).outcome == o then 1 else 0)
         + Tally(t, walk[1..], envs, now, o)
  }

  /** Visiting one more file changes the outcome for that file alone. */
  lemma OneMoreFile(t: Tree, walk: seq<Loc>, envs: map<Loc, R.ResyncEnv>, now: Time, l: Loc)
    requires l in t.files && l in envs && l !in walk
    ensures forall k :: k != l ==>
      && SlotAfter(t, walk + [l], envs, now, k) == SlotAfter(t, walk, envs, now, k)
      && ObjectAfter(t, walk + [l], envs, now, k) == ObjectAfter(t, walk, envs, now, k)
    ensures SlotAfter(t, walk, envs, now, l) == SlotOf(t.files, t.metas, l)
      && ObjectAfter(t, walk, envs, now, l) == ObjectAt(t.bucket, l)
    ensures SlotAfter(t, walk + [l], envs, now, l)
      == if Considered(l) then Decision(t, envs, now, l).slot else SlotOf(t.files, t.metas, l)
    ensures ObjectAfter(t, walk + [l], envs, now, l)
      == if Considered(l) then R.S3After(ObjectAt(t.bucket, l), Decision(t, envs, now, l)) else ObjectAt(t.bucket, l)
  {
  }

  datatype Counts = Counts(uploaded: nat, skipped: nat, conflicts: nat, errs: nat)

  /** The counters are the tallies of the walk so far. */
  predicate Tallied(t: Tree, walk: seq<Loc>, envs: map<Loc, R.ResyncEnv>, now: Time, c: Counts) {
    && c.uploaded == Tally(t, walk, envs, now, R.Uploaded)
    && c.skipped == Tally(t, walk, envs, now, R.InUse)
    && c.conflicts == Tally(t, walk, envs, now, R.Conflict)
    && c.errs == Tally(t, walk, envs, now, R.Errored)
  }

  function Counted(c: Counts, o: R.Outcome): Counts {
    match o
    case Uploaded => c.(uploaded := c.uploaded + 1)
    case InUse => c.(skipped := c.skipped + 1)
    case Conflict => c.(conflicts := c.conflicts + 1)
    case Errored => c.(errs := c.errs + 1)
    case Same => c
  }

  lemma TallyAppend(t: Tree, walk: seq<Loc>, envs: map<Loc, R.ResyncEnv>, now: Time, l: Loc, c: Counts)
    requires l in t.files && l in envs && Tallied(t, walk, envs, now, c)
    ensures Tallied(t, walk + [l], envs, now,
                    if Considered(l) then Counted(c, Decision(t, envs, now, l).outcome) else c)
  {
    TallyAppendOne(t, walk, envs, now, l, R.Uploaded);
    TallyAppendOne(t, walk, envs, now, l, R.InUse);
    TallyAppendOne(t, walk, envs, now, l, R.Conflict);
    TallyAppendOne(t, walk, envs, now, l, R.Errored);
  }

  lemma {:induction false} TallyAppendOne(t: Tree, walk: seq<Loc>, envs: map<Loc, R.ResyncEnv>, now: Time, l: Loc,
      o: R.Outcome)
    requires l in t.files && l in envs
    ensures Tally(t, walk + [l], envs, now, o) ==
      Tally(t, walk, envs, now, o) + if Considered(l) && Decision(t, envs, now, l).outcome == o then 1 else 0
  {
    if walk == [] {
      assert walk + [l] == [l];
    } else {
      assert (walk + [l])[1..] == walk[1..] + [l];
      TallyAppendOne(t, walk[1..], envs, now, l, o);
    }
  }

  /** One pass over the tree leads from t to later. */
  ghost predicate Pass(t: Tree, later: Tree, walk: seq<Loc>, envs: map<Loc, R.ResyncEnv>, now: Time) {
    && (forall l :: SlotOf(later.files, later.metas, l) == SlotAfter(t, walk, envs, now, l))
    && (forall l :: ObjectAt(later.bucket, l) == ObjectAfter(t, walk, envs, now, l))
  }

  /** The two passes see the same oracles where it matters: S3 answers, and the same files are busy. */
  ghost predicate SameConditions(walk: seq<Loc>, first: map<Loc, R.ResyncEnv>, second: map<Loc, R.ResyncEnv>) {
    forall l :: l in walk ==>
      && l in first && l in second && first[l].reached && second[l].reached
      && first[l].force == second[l].force && first[l].inUse == second[l].inUse
  }

  /** Resync is idempotent over any tree: after a pass without errors, and with no writes in between,
      a second pass uploads nothing and reports the same conflicts. */
  lemma {:induction false} ResyncIdempotent(t: Tree, later: Tree, all: seq<Loc>, walk: seq<Loc>,
      first: map<Loc, R.ResyncEnv>, second: map<Loc, R.ResyncEnv>, now: Time, after: Time)
    requires Pass(t, later, all, first, now)
    requires forall l :: l in walk ==> l in all && l in t.files && R.WellTimed(SlotOf(t.files, t.metas, l), now)
    requires SameConditions(walk, first, second)
    requires Tally(t, walk, first, now, R.Errored) == 0
    ensures Tally(later, walk, second, after, R.Uploaded) == 0 && Tally(later, walk, second, after, R.Errored) == 0
    ensures Tally(later, walk, second, after, R.Conflict) == Tally(t, walk, first, now, R.Conflict)
  {
    if walk != [] {
      var l := walk[0];
      if Considered(l) {
        R.SecondPassIsQuiet(SlotOf(t.files, t.metas, l), ObjectAt(t.bucket, l), first[l], second[l], now, after);
        assert SlotOf(later.files, later.metas, l).file.Some?;
      }
      ResyncIdempotent(t, later, all, walk[1..], first, second, now, after);
    }
  }
}
