/** The request handlers that move objects (internal/api/api.go, internal/api/resync.go), as the
    source writes them: statements over the cache directory and the bucket. PVE does not write
    inside one call; blockUploads (module Protocol) keeps uploads out. */
module Handlers {
  import opened Metadata
  import opened Text
  import opened FileCache
  import opened ResyncWalk
  import D = Download
  import R = Resync

  /** Files and objects at one moment. */
  datatype Moment = Moment(files: map<Loc, File>, bucket: map<Loc, Object>)

  /** The oracles of a copy or rename: whether each S3 call and file operation succeeds, whether a
      failed S3 call took effect all the same, and what new objects and files are stamped with. */
  datatype CopyEnv = CopyEnv(
    copyOk: bool, copyLands: bool, etagKnown: bool, putOk: bool, putLands: bool, deleteLands: bool,
    created: bool, copied: bool, renamed: bool, unlinked: bool, etag: ETag, s3Time: Time, inode: nat, mtime: Time)

  /** The bytes are on S3 under either name, or in a local file under either name. */
  predicate Kept(m: Moment, src: Loc, dst: Loc, data: string) {
    || (src in m.bucket && m.bucket[src].data == data)
    || (dst in m.bucket && m.bucket[dst].data == data)
    || (src in m.files && m.files[src].data == data)
    || (dst in m.files && m.files[dst].data == data)
  }

  /** What a key holds before a rename: the local file if it is authoritative, else the object. */
  function Holds(s: Slot, s3: Option<Object>): Option<string> {
    if LocalAuthoritative(s) then Some(s.file.value.data)
    else if s3.Some? then Some(s3.value.data)
    else if s.file.Some? then Some(s.file.value.data)
    else None
  }

  /** The cached copy, if S3's is passed over for it, is no different. */
  predicate Coherent(s: Slot, s3: Option<Object>) {
    s.file.Some? && s3.Some? ==> s.file.value.data == s3.value.data
  }

  /** A cache entry that mirrors the object under the same key. */
  predicate Mirrors(s: Slot, s3: Option<Object>, etag: ETag) {
    && s3.Some? && Covered(s) && s.meta.value.etag == etag && (etag != "" ==> s3.value.etag == etag)
    && s.file.value.data == s3.value.data
  }

  /** The watcher's late event for such an entry is dropped. */
  lemma MirrorIsNotMarked(s: Slot, s3: Option<Object>, etag: ETag, later: Time)
    requires Mirrors(s, s3, etag)
    ensures MarkPending(s, later) == (s, false)
  {
  }

  class Daemon {
    const cache: FileCache
    var bucket: map<Loc, Object>
    /** What every S3 call and file rename of a rename left behind it, in order. */
    ghost var trail: seq<Moment>

    constructor (cache: FileCache)
      ensures this.cache == cache && bucket == map[] && trail == []
    {
      this.cache := cache;
      bucket := map[];
      trail := [];
    }

    function Now(): Moment
      reads this, cache
    {
      Moment(cache.files, bucket)
    }

    // ---- S3 calls ----

    method CopyObject(src: Loc, dst: Loc, env: CopyEnv) returns (ok: bool, etag: ETag)
      modifies this
      ensures trail == old(trail) + [Now()]
      ensures ok <==> env.copyOk && src in old(bucket)
      ensures bucket == if src in old(bucket) && (env.copyOk || env.copyLands)
                        then old(bucket)[dst := Object(old(bucket)[src].data, env.etag, env.s3Time)] else old(bucket)
      ensures etag == if env.etagKnown then env.etag else ""
    {
      etag := if env.etagKnown then env.etag else "";
      ok := env.copyOk && src in bucket;
      if src in bucket && (env.copyOk || env.copyLands) {
        bucket := bucket[dst := Object(bucket[src].data, env.etag, env.s3Time)];
      }
      trail := trail + [Now()];
    }

    /** putFile: stat and upload the file at a path; without a file, an error and nothing else. */
    method PutFile(key: Loc, path: Loc, env: CopyEnv) returns (ok: bool, info: FileInfo)
      modifies this
      ensures trail == old(trail) + [Now()]
      ensures ok <==> path in cache.files && env.putOk
      ensures path in cache.files ==> info == Stat(cache.files[path])
      ensures bucket == if path in cache.files && (env.putOk || env.putLands)
                        then old(bucket)[key := Object(cache.files[path].data, env.etag, env.s3Time)] else old(bucket)
    {
      ok, info := false, FileInfo(0, 0, 0);
      if path in cache.files {
        ok, info := env.putOk, Stat(cache.files[path]);
        if env.putOk || env.putLands { bucket := bucket[key := Object(cache.files[path].data, env.etag, env.s3Time)]; }
      }
      trail := trail + [Now()];
    }

    /** Whether S3 reports it or not, and whether or not there was an object. */
    method DeleteObject(key: Loc, lands: bool)
      modifies this
      ensures bucket == if lands then old(bucket) - {key} else old(bucket)
      ensures trail == old(trail) + [Now()]
    {
      if lands { bucket := bucket - {key}; }
      trail := trail + [Now()];
    }

    // ---- local files ----

    /** copyLocalFile: create (or truncate) the destination, then copy what the source holds now. */
    method CopyLocalFile(src: Loc, dst: Loc, env: CopyEnv) returns (ok: bool)
      modifies cache
      ensures cache.metas == old(cache.metas)
      ensures ok <==> src in old(cache.files) && env.created && env.copied
      ensures src !in old(cache.files) || !env.created ==> cache.files == old(cache.files)
      ensures src in old(cache.files) && env.created && !ok ==> cache.files == old(cache.files) - {dst}
      ensures ok ==> cache.files == old(cache.files)[dst := File(
          if dst in old(cache.files) then old(cache.files)[dst].inode else env.inode, env.mtime,
          if src == dst then "" else old(cache.files)[src].data)]
    {
      if src !in cache.files || !env.created { return false; }
      var inode := if dst in cache.files then cache.files[dst].inode else env.inode;
      cache.files := cache.files[dst := File(inode, env.mtime, "")];
      if !env.copied {
        cache.files := cache.files - {dst};
        return false;
      }
      cache.files := cache.files[dst := File(inode, env.mtime, cache.files[src].data)];
      return true;
    }

    /** Rename a local file over another. */
    method RenameFile(src: Loc, dst: Loc)
      requires src in cache.files && src != dst
      modifies cache`files, this`trail
      ensures cache.files == old(cache.files)[dst := old(cache.files)[src]] - {src}
      ensures trail == old(trail) + [Now()]
    {
      cache.files := cache.files[dst := cache.files[src]] - {src};
      trail := trail + [Now()];
    }

    /** recordOwnWrite */
    method RecordOwnWrite(l: Loc, info: FileInfo, etag: ETag, now: Time)
      modifies cache
      ensures cache.files == old(cache.files)
      ensures cache.At(l) == Metadata.MarkSynced(old(cache.At(l)), info, None, InSync(etag, now, info.size), now).0
      ensures forall k :: k != l ==> cache.At(k) == old(cache.At(k))
    {
      var _ := cache.MarkSynced(l, info, None, InSync(etag, now, info.size), now);
    }

    // ---- delete ----

    /** Once the object is gone the local copy goes too; a copy that cannot be unlinked stays but is
        no longer taken for a pending write. A failed delete leaves the cache alone. */
    method HandleDelete(l: Loc, ok: bool, landed: bool, unlinked: bool, now: Time)
      requires ok ==> landed
      modifies this, cache
      ensures bucket == if landed then old(bucket) - {l} else old(bucket)
      ensures cache.At(l) == if ok then Metadata.Remove(old(cache.At(l)), unlinked, now) else old(cache.At(l))
      ensures ok ==> !(cache.At(l).meta.Some? && cache.At(l).meta.value.pending)
      ensures forall k :: k != l ==> cache.At(k) == old(cache.At(k))
    {
      if landed { bucket := bucket - {l}; }
      if !ok { return; }
      var _ := cache.Remove(l, unlinked, now);
    }

    // ---- download ----

    /** handleDownload refines the function that the machine's steps of a download add up to. body is the
        object as it is when the transfer comes, whatever it was at HEAD. */
    method HandleDownload(l: Loc, body: Option<Object>, env: D.DownloadEnv, now: Time)
      returns (response: D.Response, requested: bool)
      modifies cache
      ensures var r := D.HandleDownload(old(cache.At(l)), Head(ObjectAt(bucket, l), env.reached), body, env, now);
        cache.At(l) == r.slot && response == r.response && requested == r.requested
      ensures forall k :: k != l ==> cache.At(k) == old(cache.At(k))
    {
      var head := Head(ObjectAt(bucket, l), env.reached);
      requested := false;
      if l in cache.files {
        var file := cache.files[l];
        var state := if l in cache.metas then LocalUnknown else ReconcileLocal(Stat(file), head);
        if (l in cache.metas && cache.metas[l].pending) || state.LocalMissing? || state.LocalNewer? {
          return D.Served(file.data), true;
        }
        if state.LocalInSync? {
          cache.StoreMeta(l, InSync(head.obj.etag, head.obj.lastModified, |head.obj.data|), now);
          return D.Served(file.data), false;
        }
        if head.NotFound? {
          var _ := cache.Remove(l, env.unlinked, now);
          return D.Gone, false;
        }
        if head.Unreachable? { return D.Served(file.data), false; }
        if !IsStale(cache.At(l).meta, head.obj) { return D.Served(file.data), false; }
        cache.Invalidate(l, env.unlinked);
      }
      if head.NotFound? { return D.Gone, false; }
      if head.Unreachable? || !env.fetched || body.None? { return D.Error, false; }
      var data := body.value.data;
      cache.files := cache.files[l := File(env.inode, env.mtime, data)];
      cache.StoreMeta(l, InSync(head.obj.etag, head.obj.lastModified, |data|), now);
      return D.Served(data), false;
    }

    // ---- copy ----

    /** The destination's bytes come from the local file: it is authoritative, or S3 cannot copy. */
    ghost predicate FromLocal(src: Loc, env: CopyEnv)
      reads this, cache
    {
      LocalAuthoritative(cache.At(src)) || !env.copyOk || src !in bucket
    }

    /** The destination's cache entry is left as it was, although its object is a new one: the source
        is not cached, or the destination could not be created. */
    ghost predicate CopyLeavesEntry(src: Loc, env: CopyEnv)
      reads this, cache
    {
      !FromLocal(src, env) && (src !in cache.files || !env.created)
    }

    /** Only the destination changes. If its bytes come from the local file, success leaves object
        and cache entry with exactly those bytes, mirrored. If S3 copied, success leaves the source
        object's bytes there, and with a cached source a covered entry that agrees with the object
        exactly when the cached source agreed with its own object: nothing checks that. A success that
        leaves the destination's old entry leaves it to be uploaded over the new object exactly if
        it was going to be; any other success leaves nothing to upload. */
    method HandleCopy(src: Loc, dst: Loc, env: CopyEnv, now: Time) returns (ok: bool)
      requires env.mtime <= now
      modifies this, cache
      ensures ok <==> !old(FromLocal(src, env)) || (src in old(cache.files) && env.created && env.copied && env.putOk)
      ensures !ok && (src !in old(cache.files) || !env.created) ==> cache.At(dst) == old(cache.At(dst))
      ensures !ok && src in old(cache.files) && env.created && (env.unlinked || !env.copied) ==>
        cache.At(dst).file.None?
      ensures !ok && !env.putLands && !env.copyLands ==> bucket == old(bucket)
      ensures forall k :: k != dst ==>
        cache.At(k) == old(cache.At(k)) && ObjectAt(bucket, k) == old(ObjectAt(bucket, k))
      ensures ok && old(FromLocal(src, env)) && src != dst ==>
        && old(cache.At(src)).file.Some? && Mirrors(cache.At(dst), ObjectAt(bucket, dst), env.etag)
        && bucket[dst].data == old(cache.At(src)).file.value.data
      ensures ok && !old(FromLocal(src, env)) ==> dst in bucket && bucket[dst].data == old(bucket[src]).data
      ensures ok && old(CopyLeavesEntry(src, env)) ==> cache.At(dst) == old(cache.At(dst))
      ensures ok && !old(CopyLeavesEntry(src, env)) ==> !Pushes(cache.At(dst), ObjectAt(bucket, dst))
      ensures ok ==>
        (LocalAuthoritative(cache.At(dst)) <==> old(CopyLeavesEntry(src, env) && LocalAuthoritative(cache.At(dst))))
      ensures ok && !old(CopyLeavesEntry(src, env)) && !old(FromLocal(src, env)) && src != dst && env.copied ==>
        && Covered(cache.At(dst)) && cache.At(dst).file.value.data == old(cache.At(src)).file.value.data
        && (Mirrors(cache.At(dst), ObjectAt(bucket, dst), if env.etagKnown then env.etag else "")
            <==> Coherent(old(cache.At(src)), old(ObjectAt(bucket, src))))
    {
      var srcCached := src in cache.files;
      if !LocalAuthoritative(cache.At(src)) {
        var copyOk, etag := CopyObject(src, dst, env);
        if copyOk {
          if srcCached {
            var copied := CopyLocalFile(src, dst, env);
            if copied { RecordOwnWrite(dst, Stat(cache.files[dst]), etag, now); }
          }
          return true;
        }
        if !srcCached { return false; }
      }
      ok := UploadLocalCopy(src, dst, env, now);
    }

    /** Copy the local file, then upload the copy. If the upload fails the copy goes again, with its
        metadata; if there is nothing to copy, or nowhere to, nothing happens at all. */
    method UploadLocalCopy(src: Loc, dst: Loc, env: CopyEnv, now: Time) returns (ok: bool)
      requires env.mtime <= now
      modifies this, cache
      ensures ok <==> src in old(cache.files) && env.created && env.copied && env.putOk
      ensures src !in old(cache.files) || !env.created ==> cache.At(dst) == old(cache.At(dst)) && bucket == old(bucket)
      ensures src in old(cache.files) && env.created && !ok && (env.unlinked || !env.copied) ==>
        cache.At(dst).file.None?
      ensures src in old(cache.files) && env.created && env.copied && !ok && env.unlinked ==> cache.At(dst) == EMPTY
      ensures !ok && !env.putLands ==> bucket == old(bucket)
      ensures forall k :: k != dst ==>
        cache.At(k) == old(cache.At(k)) && ObjectAt(bucket, k) == old(ObjectAt(bucket, k))
      ensures ok ==> old(cache.At(src)).file.Some? && Mirrors(cache.At(dst), ObjectAt(bucket, dst), env.etag)
      ensures ok && src != dst ==> bucket[dst].data == old(cache.At(src)).file.value.data
    {
      var copied := CopyLocalFile(src, dst, env);
      if !copied { return false; }
      var putOk, info := PutFile(dst, dst, env);
      if !putOk {
        cache.Invalidate(dst, env.unlinked);
        return false;
      }
      RecordOwnWrite(dst, info, env.etag, now);
      return true;
    }

    // ---- rename ----

    /** When S3 cannot copy, what is uploaded instead is no different from what is then deleted. */
    ghost predicate SafeToMove(src: Loc, env: CopyEnv)
      reads this, cache
    {
      !FromLocal(src, env) || LocalAuthoritative(cache.At(src)) || Coherent(cache.At(src), ObjectAt(bucket, src))
    }

    /** The destination's cache entry is left as it was: there is no file to move, or it did not move. */
    ghost predicate RenameLeavesEntry(src: Loc, env: CopyEnv)
      reads cache
    {
      src !in cache.files || !env.renamed
    }

    /** The S3 half, first part: create the destination's object from S3's source, or from the local file. */
    method CreateObject(src: Loc, dst: Loc, env: CopyEnv) returns (ok: bool, etag: ETag, uploaded: Option<FileInfo>)
      requires src != dst
      modifies this
      ensures forall k :: k != dst ==> ObjectAt(bucket, k) == old(ObjectAt(bucket, k))
      ensures ok <==> !old(FromLocal(src, env)) || (src in cache.files && env.putOk)
      ensures !ok && !env.putLands && !env.copyLands ==> bucket == old(bucket)
      ensures ok ==> dst in bucket && bucket[dst].etag == env.etag
      ensures ok && old(FromLocal(src, env)) ==>
        src in cache.files && uploaded == Some(Stat(cache.files[src])) && etag == env.etag
          && bucket[dst].data == cache.files[src].data
      ensures ok && !old(FromLocal(src, env)) ==>
        uploaded == None && etag == (if env.etagKnown then env.etag else "")
          && bucket[dst].data == old(bucket)[src].data
      ensures old(trail) <= trail && forall i :: |old(trail)| <= i < |trail| ==> Unmoved(trail[i], src)
    {
      etag, uploaded := env.etag, None;
      var local := LocalAuthoritative(cache.At(src));
      ok := false;
      if !local {
        ok, etag := CopyObject(src, dst, env);
      }
      if !ok && src in cache.files {
        var info;
        ok, info := PutFile(dst, src, env);
        etag, uploaded := env.etag, Some(info);
      }
    }

    /** The source is as it is now. */
    ghost predicate Unmoved(m: Moment, src: Loc)
      reads this, cache
    {
      m.files == cache.files && ObjectAt(m.bucket, src) == ObjectAt(bucket, src)
    }

    /** The S3 half: create the destination, then delete the source. */
    method MoveObject(src: Loc, dst: Loc, env: CopyEnv) returns (ok: bool, etag: ETag, uploaded: Option<FileInfo>)
      requires src != dst
      modifies this
      ensures forall k :: k != src && k != dst ==> ObjectAt(bucket, k) == old(ObjectAt(bucket, k))
      ensures ObjectAt(bucket, src) == if ok && env.deleteLands then None else old(ObjectAt(bucket, src))
      ensures ok <==> !old(FromLocal(src, env)) || (src in cache.files && env.putOk)
      ensures !ok && !env.putLands && !env.copyLands ==> bucket == old(bucket)
      ensures ok ==> dst in bucket && bucket[dst].etag == env.etag
      ensures ok && old(FromLocal(src, env)) ==>
        src in cache.files && uploaded == Some(Stat(cache.files[src])) && etag == env.etag
          && bucket[dst].data == cache.files[src].data
      ensures ok && !old(FromLocal(src, env)) ==>
        uploaded == None && etag == (if env.etagKnown then env.etag else "")
          && bucket[dst].data == old(bucket)[src].data
      ensures old(trail) <= trail && (ok ==> |old(trail)| < |trail|)
      ensures var was := old(Holds(cache.At(src), ObjectAt(bucket, src)));
        was.Some? && old(SafeToMove(src, env)) ==>
          forall i :: |old(trail)| <= i < |trail| ==> Kept(trail[i], src, dst, was.value)
    {
      ok, etag, uploaded := CreateObject(src, dst, env);
      if ok { DeleteObject(src, env.deleteLands); }
    }

    /** The local half: move the file, record it, drop what is left of the source. */
    method MoveEntry(src: Loc, dst: Loc, uploaded: Option<FileInfo>, etag: ETag, env: CopyEnv, now: Time)
      requires src != dst
      requires src in cache.files ==>
        cache.files[src].mtime <= now && (uploaded.Some? ==> uploaded.value == Stat(cache.files[src]))
      modifies cache, this`trail
      ensures forall k :: k != src && k != dst ==> cache.At(k) == old(cache.At(k))
      ensures old(trail) <= trail && forall i :: |old(trail)| <= i < |trail| ==> trail[i].bucket == bucket
      ensures src in old(cache.files) && env.renamed ==>
        && cache.At(dst).file == old(cache.At(src)).file
        && Covered(cache.At(dst)) && cache.At(dst).meta.value.etag == etag
        && cache.At(src) == EMPTY
      ensures src !in old(cache.files) || !env.renamed ==>
        cache.At(dst) == old(cache.At(dst)) && cache.At(src) == Metadata.Invalidate(old(cache.At(src)), env.unlinked)
    {
      if src in cache.files && env.renamed {
        RenameFile(src, dst);
        RecordOwnWrite(dst, if uploaded.Some? then uploaded.value else Stat(cache.files[dst]), etag, now);
      }
      cache.Invalidate(src, env.unlinked);
    }

    /** After every S3 call and file rename, and at the end, whatever fails, the renamed bytes are on S3
        or in a local file under one of the two names, provided that when S3 fails to copy, the cached file uploaded
        instead is no different from the object then deleted; without that proviso the object's
        bytes are gone at the end. Success moves object and entry; failure leaves the source. A success
        that moves no file leaves the destination's old entry, to be uploaded over the moved object
        (whose source is deleted by then) exactly if it was going to be. */
    method HandleRename(src: Loc, dst: Loc, env: CopyEnv, now: Time) returns (ok: bool)
      requires src != dst
      requires cache.At(src).file.Some? ==> cache.At(src).file.value.mtime <= now
      modifies this, cache
      ensures ok <==> !old(FromLocal(src, env)) || (src in old(cache.files) && env.putOk)
      ensures forall k :: k != src && k != dst ==>
        cache.At(k) == old(cache.At(k)) && ObjectAt(bucket, k) == old(ObjectAt(bucket, k))
      ensures var was := old(Holds(cache.At(src), ObjectAt(bucket, src)));
        was.Some? && old(SafeToMove(src, env)) ==>
          && (forall i :: |old(trail)| <= i < |trail| ==> Kept(trail[i], src, dst, was.value))
          && Kept(Now(), src, dst, was.value)
          && (ok ==> dst in bucket && bucket[dst].data == was.value)
      ensures ok && src in old(cache.files) && env.renamed ==>
        && cache.At(dst).file == old(cache.At(src)).file && Covered(cache.At(dst)) && cache.At(src) == EMPTY
        && (Mirrors(cache.At(dst), ObjectAt(bucket, dst),
                    if old(FromLocal(src, env)) || env.etagKnown then env.etag else "")
            <==> old(FromLocal(src, env)) || Coherent(old(cache.At(src)), old(ObjectAt(bucket, src))))
      ensures ok && old(RenameLeavesEntry(src, env)) ==> cache.At(dst) == old(cache.At(dst))
      ensures ok && !old(RenameLeavesEntry(src, env)) ==> !Pushes(cache.At(dst), ObjectAt(bucket, dst))
      ensures ok ==>
        (LocalAuthoritative(cache.At(dst)) <==> old(RenameLeavesEntry(src, env) && LocalAuthoritative(cache.At(dst))))
      ensures ok && old(RenameLeavesEntry(src, env)) ==>
        cache.At(src) == Metadata.Invalidate(old(cache.At(src)), env.unlinked)
      ensures ok ==> ObjectAt(bucket, src) == if env.deleteLands then None else old(ObjectAt(bucket, src))
      ensures ok && env.deleteLands && src in old(bucket) ==>
        old(RenameLeavesEntry(src, env) || SafeToMove(src, env)) || !Kept(Now(), src, dst, old(bucket)[src].data)
      ensures !ok ==> forall k :: cache.At(k) == old(cache.At(k))
      ensures !ok ==> ObjectAt(bucket, src) == old(ObjectAt(bucket, src))
    {
      var etag, uploaded;
      ok, etag, uploaded := MoveObject(src, dst, env);
      if !ok { return; }
      MoveEntry(src, dst, uploaded, etag, env, now);
    }

    // ---- resync ----

    /** The walk treats every considered file as the decision table says for its own key, touches
        nothing else, and counts the outcomes. */
    method HandleResync(walk: seq<Loc>, envs: map<Loc, R.ResyncEnv>, now: Time)
      returns (uploaded: nat, skipped: nat, conflicts: nat, errs: nat)
      requires Distinct(walk) && forall l :: l in walk ==> l in cache.files && l in envs
      modifies this, cache
      ensures forall l :: cache.At(l) == SlotAfter(old(Disk()), walk, envs, now, l)
      ensures forall l :: ObjectAt(bucket, l) == ObjectAfter(old(Disk()), walk, envs, now, l)
      ensures forall l | l in walk && (EndsWith(l.key, ".tmp") || EndsWith(l.key, ".meta")) ::
        cache.At(l) == old(cache.At(l)) && ObjectAt(bucket, l) == old(ObjectAt(bucket, l))
      ensures forall l | l in walk && !EndsWith(l.key, ".tmp") && !EndsWith(l.key, ".meta") ::
        var r := R.ResyncOne(old(cache.At(l)), Head(old(ObjectAt(bucket, l)), envs[l].reached), envs[l], now);
        cache.At(l) == r.slot && ObjectAt(bucket, l) == R.S3After(old(ObjectAt(bucket, l)), r)
      ensures uploaded == Tally(old(Disk()), walk, envs, now, R.Uploaded)
      ensures skipped == Tally(old(Disk()), walk, envs, now, R.InUse)
      ensures conflicts == Tally(old(Disk()), walk, envs, now, R.Conflict)
      ensures errs == Tally(old(Disk()), walk, envs, now, R.Errored)
    {
      uploaded, skipped, conflicts, errs := 0, 0, 0, 0;
      ghost var was := Disk();
      for i := 0 to |walk|
        invariant forall l :: cache.At(l) == SlotAfter(was, walk[..i], envs, now, l)
        invariant forall l :: ObjectAt(bucket, l) == ObjectAfter(was, walk[..i], envs, now, l)
        invariant Tallied(was, walk[..i], envs, now, Counts(uploaded, skipped, conflicts, errs))
      {
        var l := walk[i];
        assert l !in walk[..i] && walk[..i + 1] == walk[..i] + [l];
        OneMoreFile(was, walk[..i], envs, now, l);
        TallyAppend(was, walk[..i], envs, now, l, Counts(uploaded, skipped, conflicts, errs));
        if Considered(l) {
          var outcome := ResyncFile(l, envs[l], now);
          match outcome
          case Uploaded => uploaded := uploaded + 1;
          case InUse => skipped := skipped + 1;
          case Conflict => conflicts := conflicts + 1;
          case Errored => errs := errs + 1;
          case Same =>
        }
      }
      assert walk[..|walk|] == walk;
    }

    function Disk(): Tree
      reads this, cache
    {
      Tree(cache.files, cache.metas, bucket)
    }

    /** One file of the walk, as the source's callback does it. */
    method ResyncFile(l: Loc, env: R.ResyncEnv, now: Time) returns (outcome: R.Outcome)
      requires l in cache.files
      modifies this, cache
      ensures var r := R.ResyncOne(old(cache.At(l)), Head(old(ObjectAt(bucket, l)), env.reached), env, now);
        && cache.At(l) == r.slot && outcome == r.outcome
        && ObjectAt(bucket, l) == R.S3After(old(ObjectAt(bucket, l)), r)
      ensures forall k :: k != l ==> cache.At(k) == old(cache.At(k)) && ObjectAt(bucket, k) == old(ObjectAt(bucket, k))
    {
      if env.inUse { return R.InUse; }
      var info := Stat(cache.files[l]);
      var head := Head(ObjectAt(bucket, l), env.reached);
      if head.Found? {
        if info.size == |head.obj.data| && (Covers(cache.At(l).meta, info) || info.mtime <= head.obj.lastModified) {
          if l !in cache.metas {
            cache.StoreMeta(l, InSync(head.obj.etag, head.obj.lastModified, |head.obj.data|), now);
          }
          return R.Same;
        }
        if info.mtime <= head.obj.lastModified && !env.force { return R.Conflict; }
      }
      if !env.openable { return R.Errored; }
      if !env.putOk {
        if env.putLands { bucket := bucket[l := Object(cache.files[l].data, env.etag, env.putTime)]; }
        return R.Errored;
      }
      bucket := bucket[l := Object(cache.files[l].data, env.etag, env.putTime)];
      var accepted := cache.MarkSynced(l, info, Some(now), InSync(env.etag, now, info.size), now);
      if !accepted {
        var _ := cache.MarkPending(l, now);
      }
      return R.Uploaded;
    }
  }
}
