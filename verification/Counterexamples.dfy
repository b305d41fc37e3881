/** Runs of a daemon that started on an empty path, one for each promise that needs its condition. */
module Counterexamples {
  import opened Metadata
  import opened Download
  import opened Protocol
  import opened NoLoss
  import opened Durability
  import opened Deletion
  import opened Runs

  ghost predicate Leads(s: State, steps: seq<Step>, t: State) { Valid(s, steps) && Exec(s, steps) == t }

  lemma Then(s: State, steps: seq<Step>, t: State, step: Step)
    requires Leads(s, steps, t) && Enabled(t, step)
    ensures Leads(s, steps + [step], Apply(t, step))
  {
    assert [step][1..] == [];
    Joined(s, steps, [step]);
  }

  function Fresh(): State {
    State(World(100, EMPTY, None, false, false, History(map[], map[], {}, map[], {}, {})), START, map[], 0, 0)
  }

  const OLD := Object("old", "e", 90)
  const FIRST := File(1, 100, "old")

  /** S3 holds an object and a download has cached it. */
  lemma Cached() returns (steps: seq<Step>, t: State)
    ensures Leads(Fresh(), steps, t)
    ensures t.c == START && t.epoch == 1 && t.downs.Keys == {0} && t.downs[0].Answered?
    ensures t.w == World(100, Slot(Some(FIRST), Some(FileMeta("e", 90, 3, 100, false, 1))), Some(OLD), false, false,
                         History(map[Version(1, 100) := "old"], map[1 := 100], {"old"}, map["e" := "old"], {}, {}))
  {
    var s := Fresh();
    steps, t := Transferred();
    Then(s, steps, t, Down(0, Rename(true, 1, 100)));
    steps, t := steps + [Down(0, Rename(true, 1, 100))], Apply(t, Down(0, Rename(true, 1, 100)));
    Then(s, steps, t, Down(0, Stamp));
    steps, t := steps + [Down(0, Stamp)], Apply(t, Down(0, Stamp));
  }

  /** The same, before the rename. */
  lemma Transferred() returns (steps: seq<Step>, t: State)
    ensures Leads(Fresh(), steps, t)
    ensures t.c == START && t.epoch == 1 && t.downs == map[0 := Fetched(Sight(Found(OLD), EMPTY, Some(OLD)), OLD)]
    ensures t.w == World(100, EMPTY, Some(OLD), false, false,
                         History(map[], map[], {"old"}, map["e" := "old"], {}, {}))
  {
    var s := Fresh();
    steps, t := [], s;
    Then(s, steps, t, Env(RemotePut(OLD)));
    steps, t := steps + [Env(RemotePut(OLD))], Apply(t, Env(RemotePut(OLD)));
    Then(s, steps, t, Down(0, Ask(true)));
    steps, t := steps + [Down(0, Ask(true))], Apply(t, Down(0, Ask(true)));
    Then(s, steps, t, Down(0, Look));
    steps, t := steps + [Down(0, Look)], Apply(t, Down(0, Look));
    Then(s, steps, t, Down(0, Transfer(true)));
    steps, t := steps + [Down(0, Transfer(true))], Apply(t, Down(0, Transfer(true)));
  }

  // ---- deleted, and back ----

  /** A delete that ends while a download of the object waits for its rename. */
  lemma DeletedObjectCanReturn() returns (before: seq<Step>)
    ensures Init(Fresh()) && Valid(Fresh(), before) && DeleteEnds(Exec(Fresh(), before), 0, true)
    ensures CanReturn(Apply(Exec(Fresh(), before), Handler(0, RemoveLocal(true))))
  {
    var s := Fresh();
    var steps, t := Transferred();
    Then(s, steps, t, Handler(0, Block));
    steps, t := steps + [Handler(0, Block)], Apply(t, Handler(0, Block));
    Then(s, steps, t, Handler(0, StartDelete));
    steps, t := steps + [Handler(0, StartDelete)], Apply(t, Handler(0, StartDelete));
    Then(s, steps, t, Handler(0, DeleteLands));
    steps, t := steps + [Handler(0, DeleteLands)], Apply(t, Handler(0, DeleteLands));
    Then(s, steps, t, Handler(0, DeleteReturns(true)));
    steps, t := steps + [Handler(0, DeleteReturns(true))], Apply(t, Handler(0, DeleteReturns(true)));
    before := steps;
    assert CanInstall(t, 0);
    DeletedReturnsIff(s, before, 0, true);
  }

  // ---- purged, and back ----

  /** An upload has opened the cached file; another node deletes the object, and a download purges the file. */
  lemma PurgedObjectCanReturn() returns (before: seq<Step>)
    ensures Init(Fresh()) && Valid(Fresh(), before)
    ensures var t := Exec(Fresh(), before); Enabled(t, Down(1, Act(true))) && t.w.s3.None? && t.downs[1].what.Purge?
    ensures CanReturn(Apply(Exec(Fresh(), before), Down(1, Act(true))))
  {
    var s := Fresh();
    var steps, t := Cached();
    var steps1, t1 := OpenedIn(steps, t);
    steps, t := steps1, t1;
    Then(s, steps, t, Env(RemoteDelete));
    steps, t := steps + [Env(RemoteDelete)], Apply(t, Env(RemoteDelete));
    Then(s, steps, t, Down(1, Ask(true)));
    steps, t := steps + [Down(1, Ask(true))], Apply(t, Down(1, Ask(true)));
    Then(s, steps, t, Down(1, Look));
    steps, t := steps + [Down(1, Look)], Apply(t, Down(1, Look));
    Then(s, steps, t, Down(1, Read(true)));
    steps, t := steps + [Down(1, Read(true))], Apply(t, Down(1, Read(true)));
    before := steps;
    assert CanPut(t, 0);
    PurgedReturnsIff(s, before, 1);
  }

  /** A trigger, up to the published cancel function. */
  lemma OpenedIn(before: seq<Step>, s: State) returns (steps: seq<Step>, t: State)
    requires Leads(Fresh(), before, s) && s.c == START && s.w.slot.file.Some?
    ensures Leads(Fresh(), steps, t) && t.w == s.w && t.downs == s.downs && t.epoch == s.epoch
    ensures At(t, 0) && t.c.threads[0].pc == ReadingMeta(Stat(s.w.slot.file.value)) && t.c.threads[0].started == s.w.now
    ensures !t.c.sh.states[0].canceled && t.c.sh.states[0].ended == {}
  {
    steps, t := before, s;
    Then(Fresh(), steps, t, Upload(0, Trigger(true)));
    steps, t := steps + [Upload(0, Trigger(true))], Apply(t, Upload(0, Trigger(true)));
    Then(Fresh(), steps, t, Upload(0, Start));
    steps, t := steps + [Upload(0, Start)], Apply(t, Upload(0, Start));
    Then(Fresh(), steps, t, Upload(0, Open(true)));
    steps, t := steps + [Upload(0, Open(true))], Apply(t, Upload(0, Open(true)));
    Then(Fresh(), steps, t, Upload(0, Publish));
    steps, t := steps + [Upload(0, Publish)], Apply(t, Upload(0, Publish));
  }

  // ---- an upload that finishes between HEAD and the reading of the metadata ----

  /** PVE writes a file, the watcher marks it, and a download's HEAD finds S3 without it. */
  lemma PendingAsked() returns (steps: seq<Step>, t: State)
    ensures Leads(Fresh(), steps, t)
    ensures t.c == START && t.epoch == 0 && t.downs == map[0 := Asked(NotFound)]
    ensures t.w.now == 100 && t.w.s3.None?
      && t.w.h == History(map[Version(1, 100) := "old"], map[1 := 100], {}, map[], {}, {})
    ensures t.w.slot == Slot(Some(FIRST), Some(FileMeta("", 100, 3, 100, true, 1)))
  {
    var s := Fresh();
    steps, t := [], s;
    Then(s, steps, t, Env(PveWrite(FIRST)));
    steps, t := steps + [Env(PveWrite(FIRST))], Apply(t, Env(PveWrite(FIRST)));
    Then(s, steps, t, Daemon(WatchEvent));
    steps, t := steps + [Daemon(WatchEvent)], Apply(t, Daemon(WatchEvent));
    Then(s, steps, t, Down(0, Ask(true)));
    steps, t := steps + [Down(0, Ask(true))], Apply(t, Down(0, Ask(true)));
  }

  lemma LandedMeanwhile() returns (steps: seq<Step>, t: State)
    ensures Leads(Fresh(), steps, t)
    ensures t.downs == map[0 := Asked(NotFound)] && t.w.s3 == Some(OLD) && t.w.now == 100
    ensures t.w.slot == Slot(Some(FIRST), Some(FileMeta("", 100, 3, 100, true, 1)))
    ensures At(t, 0) && t.c.threads[0].pc == InPut(Stat(FIRST), Some(OLD)) && t.c.threads[0].started == 100
    ensures !t.c.sh.states[0].canceled
  {
    var s := Fresh();
    var before, t0 := PendingAsked();
    steps, t := OpenedIn(before, t0);
    Then(s, steps, t, Upload(0, ReadMeta));
    steps, t := steps + [Upload(0, ReadMeta)], Apply(t, Upload(0, ReadMeta));
    Then(s, steps, t, Upload(0, StartPut));
    steps, t := steps + [Upload(0, StartPut)], Apply(t, Upload(0, StartPut));
    Then(s, steps, t, Upload(0, Land(OLD)));
    steps, t := steps + [Upload(0, Land(OLD))], Apply(t, Upload(0, Land(OLD)));
  }

  lemma UploadedMeanwhile() returns (steps: seq<Step>, t: State)
    ensures Leads(Fresh(), steps, t)
    ensures t.downs == map[0 := Asked(NotFound)] && t.w.s3 == Some(OLD)
    ensures t.w.slot == Slot(Some(FIRST), Some(FileMeta("e", 100, 3, 100, false, 1)))
  {
    var s := Fresh();
    steps, t := LandedMeanwhile();
    Then(s, steps, t, Upload(0, PutReturns(true)));
    steps, t := steps + [Upload(0, PutReturns(true))], Apply(t, Upload(0, PutReturns(true)));
    Then(s, steps, t, Upload(0, Check));
    steps, t := steps + [Upload(0, Check)], Apply(t, Upload(0, Check));
    Then(s, steps, t, Upload(0, Mark));
    steps, t := steps + [Upload(0, Mark)], Apply(t, Upload(0, Mark));
  }

  /** The download then reads synced metadata, takes HEAD's 404 for a deletion, and answers "gone" and
      unlinks the file although S3 holds the object. */
  lemma FinishedUploadIsPurged() returns (steps: seq<Step>)
    ensures Init(Fresh()) && Valid(Fresh(), steps)
    ensures var t := Exec(Fresh(), steps);
      && t.w.s3 == Some(OLD) && t.w.slot == EMPTY
      && 0 in t.downs && t.downs[0].Answered? && t.downs[0].response == Gone && !Unnoticed(t.downs[0].seen.slot)
  {
    var s := Fresh();
    var t;
    steps, t := UploadedMeanwhile();
    Then(s, steps, t, Down(0, Look));
    steps, t := steps + [Down(0, Look)], Apply(t, Down(0, Look));
    Then(s, steps, t, Down(0, Read(true)));
    steps, t := steps + [Down(0, Read(true))], Apply(t, Down(0, Read(true)));
    Then(s, steps, t, Down(0, Act(true)));
    steps, t := steps + [Down(0, Act(true))], Apply(t, Down(0, Act(true)));
  }

  // ---- a file marked pending, and lost ----

  /** An eviction picks the synced file; PVE rewrites it and the watcher marks it; the eviction unlinks it. */
  lemma PendingFileCanBeEvicted() returns (steps: seq<Step>)
    ensures Init(Fresh()) && Valid(Fresh(), steps) && Pending(Exec(Fresh(), steps).w, MOVED_IN)
    ensures CanLose(Exec(Fresh(), steps), MOVED_IN)
  {
    var s := Fresh();
    var t;
    steps, t := Cached();
    Then(s, steps, t, Daemon(Condemn));
    steps, t := steps + [Daemon(Condemn)], Apply(t, Daemon(Condemn));
    Then(s, steps, t, Env(PveWrite(MOVED_IN)));
    steps, t := steps + [Env(PveWrite(MOVED_IN))], Apply(t, Env(PveWrite(MOVED_IN)));
    Then(s, steps, t, Daemon(WatchEvent));
    steps, t := steps + [Daemon(WatchEvent)], Apply(t, Daemon(WatchEvent));
    ReachableInv(s, steps);
    PendingLostIff(t, MOVED_IN);
  }

  /** PVE writes the path and the watcher marks it, while a download of the key waits for its rename. */
  lemma PendingFileCanBeOverwritten() returns (steps: seq<Step>)
    ensures Init(Fresh()) && Valid(Fresh(), steps) && Pending(Exec(Fresh(), steps).w, MOVED_IN)
    ensures CanLose(Exec(Fresh(), steps), MOVED_IN)
  {
    var s := Fresh();
    var t;
    steps, t := Transferred();
    Then(s, steps, t, Env(PveWrite(MOVED_IN)));
    steps, t := steps + [Env(PveWrite(MOVED_IN))], Apply(t, Env(PveWrite(MOVED_IN)));
    Then(s, steps, t, Daemon(WatchEvent));
    steps, t := steps + [Daemon(WatchEvent)], Apply(t, Daemon(WatchEvent));
    ReachableInv(s, steps);
    assert Condemns(t.downs[0], MOVED_IN);
    PendingLostIff(t, MOVED_IN);
  }

  /** A download has read synced metadata and is about to compare ETags. */
  lemma AboutToCompare() returns (steps: seq<Step>, t: State)
    ensures Leads(Fresh(), steps, t) && 1 in t.downs && t.downs[1] == Comparing(Found(OLD))
    ensures t.w == World(100, Slot(Some(FIRST), Some(FileMeta("e", 90, 3, 100, false, 1))), Some(OLD), false, false,
                         History(map[Version(1, 100) := "old"], map[1 := 100], {"old"}, map["e" := "old"], {}, {}))
    ensures NoneStamping(t)
  {
    var s := Fresh();
    steps, t := Cached();
    Then(s, steps, t, Down(1, Ask(true)));
    steps, t := steps + [Down(1, Ask(true))], Apply(t, Down(1, Ask(true)));
    Then(s, steps, t, Down(1, Look));
    steps, t := steps + [Down(1, Look)], Apply(t, Down(1, Look));
    Then(s, steps, t, Down(1, Read(true)));
    steps, t := steps + [Down(1, Read(true))], Apply(t, Down(1, Read(true)));
  }

  /** PVE moves a file in over a synced one that a download has just found current, and the watcher marks it;
      the mark makes the record look stale, and the download unlinks both. */
  lemma PendingFileCanBeInvalidated() returns (steps: seq<Step>)
    ensures Init(Fresh()) && Valid(Fresh(), steps) && Pending(Exec(Fresh(), steps).w, MOVED_IN)
    ensures CanLose(Exec(Fresh(), steps), MOVED_IN)
    ensures var t := Exec(Fresh(), steps); Enabled(t, Down(1, Compare)) && Apply(t, Down(1, Compare)).downs[1].Acting?
  {
    var s := Fresh();
    var t;
    steps, t := AboutToCompare();
    Then(s, steps, t, Env(PveWrite(MOVED_IN)));
    steps, t := steps + [Env(PveWrite(MOVED_IN))], Apply(t, Env(PveWrite(MOVED_IN)));
    Then(s, steps, t, Daemon(WatchEvent));
    steps, t := steps + [Daemon(WatchEvent)], Apply(t, Daemon(WatchEvent));
    ReachableInv(s, steps);
    assert Condemns(t.downs[1], MOVED_IN);
    PendingLostIff(t, MOVED_IN);
  }

  // ---- a write nobody has noticed ----

  /** A file moved in over the cached one, with an old mtime. */
  const MOVED_IN := File(2, 50, "new")

  lemma MovedIn() returns (steps: seq<Step>, t: State)
    ensures Leads(Fresh(), steps, t) && Inv(t)
    ensures t.w.slot.file == Some(MOVED_IN) && Unnoticed(t.w.slot) && !t.w.slot.meta.value.pending && t.c == START
    ensures t.downs.Keys == {0} && t.w.h.stored == {"old"} && t.w.s3 == Some(OLD)
    ensures t.w.slot.meta.Some? && !Accounted(t.w, Ver(MOVED_IN))
  {
    var s := Fresh();
    steps, t := Cached();
    Then(s, steps, t, Env(PveWrite(MOVED_IN)));
    steps, t := steps + [Env(PveWrite(MOVED_IN))], Apply(t, Env(PveWrite(MOVED_IN)));
    ReachableInv(s, steps);
    assert "new"[0] != "old"[0];
  }

  /** An eviction destroys it. */
  lemma UnnoticedWriteCanBeEvicted() returns (steps: seq<Step>)
    ensures Init(Fresh()) && Valid(Fresh(), steps) && Exec(Fresh(), steps).w.slot.file == Some(MOVED_IN)
    ensures var evict := [Daemon(Condemn), Daemon(Evict(true))];
      && Valid(Exec(Fresh(), steps), evict)
      && var w := Exec(Exec(Fresh(), steps), evict).w; w.slot == EMPTY && !Accounted(w, Ver(MOVED_IN))
  {
    var t;
    steps, t := MovedIn();
    assert [Daemon(Condemn), Daemon(Evict(true))][1..] == [Daemon(Evict(true))];
    Alone(Apply(t, Daemon(Condemn)), Daemon(Evict(true)));
  }

  /** Another node deletes the object, and a download finds it gone. */
  lemma GoneIsPurged(t: State) returns (steps: seq<Step>, u: State)
    requires t.w.slot.file.Some? && !LocalAuthoritative(t.w.slot) && 1 !in t.downs
    ensures Leads(t, steps, u) && AllPreserving(steps) && u.w.slot == EMPTY && u.w.h.stored == t.w.h.stored
  {
    steps, u := AboutToPurge(t);
    Then(t, steps, u, Down(1, Act(true)));
    steps, u := steps + [Down(1, Act(true))], Apply(u, Down(1, Act(true)));
  }

  lemma AboutToPurge(t: State) returns (steps: seq<Step>, u: State)
    requires t.w.slot.file.Some? && !LocalAuthoritative(t.w.slot) && 1 !in t.downs
    ensures Leads(t, steps, u) && AllPreserving(steps) && u.w == t.w.(s3 := None)
    ensures 1 in u.downs && u.downs[1].Acting? && u.downs[1].what.Purge?
  {
    steps, u := [], t;
    Then(t, steps, u, Env(RemoteDelete));
    steps, u := steps + [Env(RemoteDelete)], Apply(u, Env(RemoteDelete));
    Then(t, steps, u, Down(1, Ask(true)));
    steps, u := steps + [Down(1, Ask(true))], Apply(u, Down(1, Ask(true)));
    Then(t, steps, u, Down(1, Look));
    steps, u := steps + [Down(1, Look)], Apply(u, Down(1, Look));
    Then(t, steps, u, Down(1, Read(true)));
    steps, u := steps + [Down(1, Read(true))], Apply(u, Down(1, Read(true)));
  }

  /** And so does a download that finds the object gone. */
  lemma UnnoticedWriteCanBeLost() returns (before: seq<Step>, after: seq<Step>)
    ensures Init(Fresh()) && Valid(Fresh(), before) && Exec(Fresh(), before).w.slot.file == Some(MOVED_IN)
    ensures Valid(Exec(Fresh(), before), after) && AllPreserving(after)
    ensures var w := Exec(Exec(Fresh(), before), after).w; w.slot == EMPTY && MOVED_IN.data !in w.h.stored
  {
    var t, u;
    before, t := MovedIn();
    after, u := GoneIsPurged(t);
    assert "new"[0] != "old"[0];
  }
}
