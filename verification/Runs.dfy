/** Putting runs together, and values that have not occurred in one. */
module Runs {
  import opened Metadata
  import opened Protocol

  lemma Prepend(s: State, step: Step, rest: seq<Step>)
    requires Enabled(s, step) && Valid(Apply(s, step), rest)
    ensures Valid(s, [step] + rest) && Exec(s, [step] + rest) == Exec(Apply(s, step), rest)
  {
    assert ([step] + rest)[1..] == rest;
  }

  lemma {:induction false} Joined(s: State, a: seq<Step>, b: seq<Step>)
    requires Valid(s, a) && Valid(Exec(s, a), b)
    ensures Valid(s, a + b) && Exec(s, a + b) == Exec(Exec(s, a), b)
    decreases |a|
  {
    if a == [] {
      assert a + b == b;
    } else {
      assert a + b == [a[0]] + (a[1..] + b);
      Joined(Apply(s, a[0]), a[1..], b);
      Prepend(s, a[0], a[1..] + b);
    }
  }

  /** An ETag longer than all of these. */
  lemma FreshTag(tags: set<ETag>) returns (tag: ETag)
    ensures tag != "" && tag !in tags && forall t :: t in tags ==> |t| < |tag|
  {
    tag := "x";
    if tags != {} {
      var t :| t in tags;
      var shorter := FreshTag(tags - {t});
      tag := if |t| < |shorter| then shorter else t + "x";
      assert forall u :: u in tags ==> u == t || u in tags - {t};
    }
  }

  /** An inode above all of these. */
  lemma FreshInode(versions: set<Version>) returns (inode: nat)
    ensures inode > 0 && forall v :: v in versions ==> v.inode < inode
  {
    inode := 1;
    if versions != {} {
      var v :| v in versions;
      var above := FreshInode(versions - {v});
      inode := if v.inode < above then above else v.inode + 1;
      assert forall u :: u in versions ==> u == v || u in versions - {v};
    }
  }

  /** Some object with these bytes that S3 may come to hold. */
  lemma NewObject(w: World, data: Bytes) returns (o: Object)
    ensures FreshObject(w, o) && o.data == data
  {
    var tag := FreshTag(w.h.etags.Keys);
    o := Object(data, tag, w.now);
  }

  /** Some file with these bytes that may come to the path. */
  lemma NewFile(w: World, data: Bytes) returns (f: File)
    ensures FreshFile(w, f) && f.data == data && f.mtime == w.now
  {
    var inode := FreshInode(w.h.versions.Keys);
    f := File(inode, w.now, data);
  }
}
