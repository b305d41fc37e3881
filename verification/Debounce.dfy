/** The watcher's debounce queue (internal/api/watcher.go, the loop of watchCacheDirs). */
module Debounce {
  import opened Metadata
  import opened Text
  import opened FileCache

  type Path = string
  type Queue = map<Path, Time>

  const WINDOW := 3 * NS_PER_SECOND

  datatype Look = Missing | Directory | Regular

  /** What one tick sees: stat of each path, and the paths blocked or open in some process. */
  datatype Sight = Sight(look: map<Path, Look>, busy: set<Path>)

  /** marked is what markPendingUpload would answer for an event on a path not yet queued. */
  datatype Input =
    | Event(p: Path, t: Time, marked: bool)
    | Request(p: Path, t: Time)
    | Tick(t: Time, sight: Sight)

  datatype Verdict = Keep | Drop | Postpone | Dispatch

  function Judge(p: Path, seen: Time, now: Time, sight: Sight): Verdict {
    if now - seen < WINDOW then Keep
    else if p !in sight.look || !sight.look[p].Regular? then Drop
    else if EndsWith(p, ".tmp") then Keep
    else if p in sight.busy then Postpone
    else Dispatch
  }

  function Dispatched(q: Queue, now: Time, sight: Sight): set<Path> {
    set p | p in q && Judge(p, q[p], now, sight).Dispatch?
  }

  function AfterTick(q: Queue, now: Time, sight: Sight): Queue {
    map p | p in q && (Judge(p, q[p], now, sight).Keep? || Judge(p, q[p], now, sight).Postpone?)
      :: if Judge(p, q[p], now, sight).Keep? then q[p] else now
  }

  function Step(q: Queue, i: Input): Queue {
    match i
    case Event(p, t, marked) => if p in q || marked then q[p := t] else q
    case Request(p, t) => if p in q then q else q[p := t]
    case Tick(t, sight) => AfterTick(q, t, sight)
  }

  class Watcher {
    var pending: Queue

    constructor (scanned: Queue)
      ensures pending == scanned
    {
      pending := scanned;
    }

    /** handled says whether the event counts as a write to upload. */
    method OnEvent(p: Path, now: Time, marked: bool) returns (handled: bool)
      modifies this
      ensures pending == Step(old(pending), Event(p, now, marked))
      ensures handled <==> p in old(pending) || marked
    {
      if p !in pending {
        if !marked { return false; }
      }
      pending := pending[p := now];
      return true;
    }

    method OnRequest(p: Path, now: Time)
      modifies this
      ensures pending == Step(old(pending), Request(p, now))
    {
      if p !in pending { pending := pending[p := now]; }
    }

    /** The order of the range over the map does not matter. */
    method OnTick(now: Time, sight: Sight) returns (started: set<Path>)
      modifies this
      ensures pending == Step(old(pending), Tick(now, sight))
      ensures started == Dispatched(old(pending), now, sight)
    {
      var todo := pending.Keys;
      started := {};
      while todo != {}
        invariant todo <= old(pending).Keys
        invariant forall p :: p in todo ==> p in pending && pending[p] == old(pending)[p]
        invariant forall p :: p !in todo ==>
          (p in pending <==> p in AfterTick(old(pending), now, sight)) &&
          (p in pending ==> pending[p] == AfterTick(old(pending), now, sight)[p])
        invariant started == set p | p in old(pending) && p !in todo && Judge(p, old(pending)[p], now, sight).Dispatch?
        decreases todo
      {
        var p :| p in todo;
        todo := todo - {p};
        if now - pending[p] < WINDOW { continue; }
        if p !in sight.look || !sight.look[p].Regular? {
          pending := pending - {p};
          continue;
        }
        if EndsWith(p, ".tmp") { continue; }
        if p in sight.busy {
          pending := pending[p := now];
          continue;
        }
        pending := pending - {p};
        started := started + {p};
      }
      assert pending.Keys == AfterTick(old(pending), now, sight).Keys;
    }
  }

  // ---- any sequence of events, requests and ticks ----

  function Run(q: Queue, ins: seq<Input>): Queue {
    if ins == [] then q else Step(Run(q, ins[..|ins| - 1]), ins[|ins| - 1])
  }

  predicate InOrder(ins: seq<Input>) { forall i, j :: 0 <= i < j < |ins| ==> ins[i].t <= ins[j].t }

  /** Input j is a write event on p that the watcher acted on. */
  predicate Handled(q: Queue, ins: seq<Input>, j: nat, p: Path)
    requires j < |ins|
  {
    ins[j].Event? && ins[j].p == p && (p in Run(q, ins[..j]) || ins[j].marked)
  }

  /** Input j is a tick that found p quiet for long enough, but blocked or open. */
  predicate Postponed(q: Queue, ins: seq<Input>, j: nat, p: Path)
    requires j < |ins|
  {
    var was := Run(q, ins[..j]);
    && ins[j].Tick? && p in was && ins[j].t - was[p] >= 3_000_000_000
    && p in ins[j].sight.look && ins[j].sight.look[p].Regular? && !EndsWith(p, ".tmp") && p in ins[j].sight.busy
  }

  /** Whatever is queued was touched no earlier than its last handled write, or the last tick that found it
      busy. */
  lemma {:induction false} QueuedSinceLastWrite(q: Queue, ins: seq<Input>, j: nat, p: Path)
    requires InOrder(ins) && j < |ins| && (Handled(q, ins, j, p) || Postponed(q, ins, j, p))
    ensures p in Run(q, ins) ==> Run(q, ins)[p] >= ins[j].t
  {
    var n := |ins| - 1;
    var before := ins[..n];
    if j < n {
      assert before[..j] == ins[..j];
      QueuedSinceLastWrite(q, before, j, p);
      assert ins[j].t <= ins[n].t;
    } else {
      assert before == ins[..j];
    }
  }

  /** A path is dispatched only when it is a regular file, not ".tmp", neither blocked nor open at
      that tick, and no handled write event for it, nor a tick that found it busy, lies within the last
      three seconds. */
  lemma DispatchOnlyWhenQuiet(q: Queue, ins: seq<Input>, i: nat, p: Path)
    requires InOrder(ins) && i < |ins| && ins[i].Tick?
    requires p in Dispatched(Run(q, ins[..i]), ins[i].t, ins[i].sight)
    ensures p in ins[i].sight.look && ins[i].sight.look[p].Regular? && !EndsWith(p, ".tmp") && p !in ins[i].sight.busy
    ensures forall j :: 0 <= j < i && (Handled(q, ins, j, p) || Postponed(q, ins, j, p)) ==>
      ins[i].t - ins[j].t >= 3_000_000_000
  {
    forall j | 0 <= j < i && (Handled(q, ins, j, p) || Postponed(q, ins, j, p)) ensures ins[i].t - ins[j].t >= WINDOW {
      assert ins[..i][..j] == ins[..j];
      assert Handled(q, ins[..i], j, p) || Postponed(q, ins[..i], j, p);
      QueuedSinceLastWrite(q, ins[..i], j, p);
    }
  }

  /** Stat finds nothing, or a directory. */
  predicate IsGone(sight: Sight, p: Path) {
    p !in sight.look || sight.look[p].Missing? || sight.look[p].Directory?
  }

  /** What a tick does to a queued path: nothing for three seconds after it was last touched; then it
      goes if it is gone; a regular file stays while its name ends in ".tmp", waits anew if blocked or
      open, and otherwise is dispatched and goes. */
  lemma TickTreats(q: Queue, now: Time, sight: Sight, p: Path)
    requires p in q
    ensures var q' := Step(q, Tick(now, sight));
      var started := p in Dispatched(q, now, sight);
      if now - q[p] < 3_000_000_000 then p in q' && q'[p] == q[p] && !started
      else if IsGone(sight, p) then p !in q' && !started
      else if EndsWith(p, ".tmp") then p in q' && q'[p] == q[p] && !started
      else if p in sight.busy then p in q' && q'[p] == now && !started
      else p !in q' && started
  {
  }

  /** A request queues a path and never pushes back one that is queued; a write event always does. */
  lemma RequestsWait(q: Queue, p: Path, t: Time, marked: bool)
    ensures var q' := Step(q, Request(p, t)); p in q' && q'[p] == if p in q then q[p] else t
    ensures var q' := Step(q, Event(p, t, marked)); if p in q || marked then p in q' && q'[p] == t else q' == q
    ensures forall r | r != p :: r in Step(q, Request(p, t)) <==> r in q
    ensures forall r | r != p :: r in Step(q, Event(p, t, marked)) <==> r in q
  {
  }

  /** Input k takes p out of the queue: dispatched, or found missing or a directory. */
  predicate Leaves(q: Queue, ins: seq<Input>, k: nat, p: Path)
    requires k < |ins|
  {
    var was := Run(q, ins[..k]);
    && ins[k].Tick? && p in was
    && (p in Dispatched(was, ins[k].t, ins[k].sight) || IsGone(ins[k].sight, p))
  }

  /** A queued path stays queued until then. */
  lemma {:induction false} StaysQueued(q: Queue, ins: seq<Input>, i: nat, p: Path)
    requires i <= |ins| && p in Run(q, ins[..i])
    requires forall k :: i <= k < |ins| ==> !Leaves(q, ins, k, p)
    ensures p in Run(q, ins)
  {
    if i == |ins| {
      assert ins[..i] == ins;
    } else {
      var n := |ins| - 1;
      assert ins[..n][..i] == ins[..i];
      forall k | i <= k < n ensures !Leaves(q, ins[..n], k, p) {
        assert ins[..n][..k] == ins[..k];
        assert !Leaves(q, ins, k, p);
      }
      StaysQueued(q, ins[..n], i, p);
      assert !Leaves(q, ins, n, p);
    }
  }
}
