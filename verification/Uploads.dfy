/** The upload bookkeeping of the server (internal/api/watcher.go) as the source keeps it: maps from
    local paths, changed under uploadsMu. Each method is one critical section and refines the
    function of module Sections that the path's state machine steps by. */
module Uploads {
  import opened Metadata
  import S = Sections

  /** An int64 number of nanoseconds: arithmetic that leaves the range does not verify. */
  newtype Duration = d: int | -0x8000_0000_0000_0000 <= d < 0x8000_0000_0000_0000

  const CAP: Duration := 30 * 60 * 1_000_000_000

  function Pow2(n: nat): nat { if n == 0 then 1 else 2 * Pow2(n - 1) }

  /** The retry delay the release notes promise: the base, doubled per attempt, at most the cap. */
  function Backoff(base: int, attempt: nat): int {
    if base * Pow2(attempt) > CAP as int then CAP as int else base * Pow2(attempt)
  }

  lemma {:induction false} Pow2Grows(i: nat, j: nat)
    requires i <= j
    ensures 1 <= Pow2(i) <= Pow2(j)
  {
    if i < j {
      Pow2Grows(i, j - 1);
    } else if i > 0 {
      Pow2Grows(i - 1, i - 1);
    }
  }

  lemma Scaled(base: int, a: nat, b: nat)
    requires base > 0 && a <= b
    ensures base * a <= base * b
  {
  }

  /** Delays never shrink from one failure to the next, and never pass half an hour. */
  lemma BackoffMonotone(base: int, i: nat, j: nat)
    requires base > 0 && i <= j
    ensures 0 < Backoff(base, i) <= Backoff(base, j) <= CAP as int
  {
    Pow2Grows(i, j);
    Scaled(base, Pow2(i), Pow2(j));
    Scaled(base, 1, Pow2(i));
  }

  /** Each failure doubles the delay, up to thirty minutes of nanoseconds. */
  lemma BackoffDoubles(base: int, attempt: nat)
    requires base > 0
    ensures Backoff(base, 0) == if base > 1_800_000_000_000 then 1_800_000_000_000 else base
    ensures Backoff(base, attempt + 1) ==
      if 2 * Backoff(base, attempt) > 1_800_000_000_000 then 1_800_000_000_000 else 2 * Backoff(base, attempt)
  {
    assert base * Pow2(attempt + 1) == 2 * (base * Pow2(attempt));
    Pow2Grows(0, attempt);
    Scaled(base, 1, Pow2(attempt));
  }

  /** The delay loop computes it, and stops doubling at the cap, so it stays inside int64. */
  method RetryDelay(base: Duration, attempt: nat) returns (delay: Duration)
    requires base > 0
    ensures delay as int == Backoff(base as int, attempt)
  {
    delay := base;
    var i := 0;
    Pow2Grows(0, attempt);
    Scaled(base as int, 1, Pow2(attempt));
    while i < attempt && delay < CAP
      invariant 0 <= i <= attempt && delay > 0
      invariant delay as int == base as int * Pow2(i)
      invariant base as int * Pow2(i) <= base as int * Pow2(attempt)
    {
      i := i + 1;
      Pow2Grows(i, attempt);
      Scaled(base as int, Pow2(i), Pow2(attempt));
      delay := delay * 2;
    }
    if delay > CAP { delay := CAP; }
  }

  type Path = string

  /** A retry timer, by identity, with the delay it was last armed with. */
  datatype Timer = Timer(id: nat, delay: Duration)

  class Server {
    const retryBase: Duration
    var uploads: map<Path, nat>
    var states: map<nat, S.UploadState>
    var blocked: map<Path, nat>
    var retries: map<Path, nat>
    var retryTimers: map<Path, Timer>

    constructor (retryBase: Duration)
      requires retryBase > 0
      ensures Valid() && this.retryBase == retryBase
      ensures forall p :: View(p) == S.IDLE
    {
      this.retryBase := retryBase;
      uploads, states, blocked, retries, retryTimers := map[], map[], map[], map[], map[];
    }

    /** Registered uploads have a state of their own, zero counts are absent. */
    ghost predicate Valid()
      reads this
    {
      && retryBase > 0
      && (forall p :: p in uploads ==> uploads[p] in states)
      && (forall p, q :: p in uploads && q in uploads && uploads[p] == uploads[q] ==> p == q)
      && (forall p :: p in blocked ==> blocked[p] > 0)
    }

    /** What one path's machine sees. */
    ghost function View(p: Path): S.Shared
      reads this
    {
      S.Shared(
        if p in uploads then Some(uploads[p]) else None,
        states,
        if p in blocked then blocked[p] else 0,
        if p in retries then retries[p] else 0,
        p in retryTimers)
    }

    /** Other paths keep everything, and the states of their uploads. */
    twostate predicate OthersKept(p: Path)
      reads this
    {
      forall q :: q != p ==> View(q) == old(View(q)).(states := states)
    }

    twostate predicate StatesKept(g: nat)
      reads this
    {
      forall h :: h != g && h in old(states) ==> h in states && states[h] == old(states[h])
    }

    /** The first section of uploadNewFile; id is the new upload's identity. */
    method BeginUpload(p: Path, id: nat) returns (how: S.Triggered)
      requires Valid() && id !in states
      modifies this
      ensures Valid() && OthersKept(p)
      ensures (View(p), how) == S.Trigger(old(View(p)), id)
      ensures StatesKept(if how.Rerun? && p in uploads then uploads[p] else id)
    {
      if p in blocked && blocked[p] > 0 { return S.HandedBack; }
      if p in uploads {
        var st := uploads[p];
        states := states[st := states[st].(rerun := true)];
        return S.Rerun;
      }
      uploads, states := uploads[p := id], states[id := S.NEW_UPLOAD];
      return S.Started;
    }

    /** uploadOnce: publish the attempt's cancel function, unless already canceled. */
    method PublishCancel(p: Path, st: nat, attempt: nat) returns (go: bool)
      requires Valid() && st in states
      modifies this
      ensures Valid() && OthersKept(p) && StatesKept(st)
      ensures (View(p), go) == S.Publish(old(View(p)), st, attempt)
    {
      if states[st].canceled { return false; }
      states := states[st := states[st].(cancel := Some(attempt))];
      return true;
    }

    /** The section that ends a round of uploadNewFile. */
    method EndRound(p: Path, st: nat, retry: bool, id: nat) returns (how: S.Finished)
      requires Valid() && st in states
      modifies this
      ensures Valid() && OthersKept(p) && StatesKept(st)
      ensures (View(p), how) == S.Finish(old(View(p)), st, retry)
      ensures how.Failed? ==>
        p in retryTimers && retryTimers[p].delay as int == Backoff(retryBase as int, old(View(p)).retries)
    {
      if states[st].rerun && !states[st].canceled {
        states := states[st := states[st].(rerun := false)];
        return S.Again;
      }
      uploads := uploads - {p};
      if retry && !states[st].canceled {
        ScheduleRetryLocked(p, id);
        return S.Failed;
      }
      retries, retryTimers := retries - {p}, retryTimers - {p};
      return if states[st].canceled then S.Dropped else S.Succeeded;
    }

    /** Count the failure and push back the timer there is, or arm a new one, id. */
    method ScheduleRetryLocked(p: Path, id: nat)
      requires Valid()
      modifies this`retries, this`retryTimers
      ensures Valid()
      ensures retries == old(retries)[p := old(View(p)).retries + 1]
      ensures retryTimers.Keys == old(retryTimers).Keys + {p}
      ensures forall q :: q != p && q in retryTimers ==> retryTimers[q] == old(retryTimers)[q]
      ensures retryTimers[p].delay as int == Backoff(retryBase as int, old(View(p)).retries)
      ensures retryTimers[p].id == if p in old(retryTimers) then old(retryTimers)[p].id else id
    {
      var attempt := if p in retries then retries[p] else 0;
      retries := retries[p := attempt + 1];
      var delay := RetryDelay(retryBase, attempt);
      retryTimers := retryTimers[p := Timer(if p in retryTimers then retryTimers[p].id else id, delay)];
    }

    /** A timer fires (and then requests an upload): it forgets itself, but not one that took its place. */
    method RetryFires(p: Path, id: nat)
      requires Valid()
      modifies this`retryTimers
      ensures Valid() && OthersKept(p)
      ensures if p in old(retryTimers) && old(retryTimers)[p].id == id then View(p) == old(View(p)).(timer := false)
              else retryTimers == old(retryTimers)
    {
      if p in retryTimers && retryTimers[p].id == id { retryTimers := retryTimers - {p}; }
    }

    /** The section of blockUploads; wait is the upload whose end the caller awaits. */
    method BlockUploads(p: Path) returns (wait: Option<nat>)
      requires Valid()
      modifies this
      ensures Valid() && OthersKept(p)
      ensures (View(p), wait) == S.Block(old(View(p)))
      ensures if wait.Some? then StatesKept(wait.value) else states == old(states)
    {
      blocked := blocked[p := 1 + if p in blocked then blocked[p] else 0];
      if p !in uploads { return None; }
      var st := uploads[p];
      states := states[st := S.Canceled(states[st])];
      return Some(st);
    }

    method Unblock(p: Path)
      requires Valid()
      modifies this`blocked
      ensures Valid() && OthersKept(p) && View(p) == S.Unblock(old(View(p)))
    {
      if p in blocked && blocked[p] > 1 {
        blocked := blocked[p := blocked[p] - 1];
      } else {
        blocked := blocked - {p};
      }
    }

    method UploadBlocked(p: Path) returns (b: bool)
      requires Valid()
      ensures b <==> View(p).blocked > 0
    {
      b := p in blocked && blocked[p] > 0;
    }
  }
}
