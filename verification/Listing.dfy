/** handleList and mergeLocalFiles (internal/api/api.go): one listing of S3 and the cache. */
module Listing {
  import opened Metadata
  import opened Text
  import opened Volumes

  datatype S3Entry = S3Entry(key: string, size: nat)

  /** A directory as ReadDir sees it; readable is whether the listing or Info call on it succeeds. */
  datatype Entry =
    | FileEntry(name: string, size: nat, readable: bool)
    | DirEntry(name: string, files: seq<Entry>, readable: bool)

  datatype Volume = Volume(volume: string, key: string, size: nat, format: string, content: string)

  function ToLower(s: string): string {
    seq(|s|, i requires 0 <= i < |s| => if 'A' <= s[i] <= 'Z' then (s[i] as int + 32) as char else s[i])
  }

  function DetectFormat(key: string): string {
    var lower := ToLower(key);
    if EndsWith(lower, ".iso") then "iso"
    else if EndsWith(lower, ".tar.gz") || EndsWith(lower, ".tar.xz") || EndsWith(lower, ".tar.zst") then "tgz"
    else "raw"
  }

  function NewVolume(storage: string, volname: string, key: string, size: nat, content: string): Volume {
    Volume(storage + ":" + volname, key, size, DetectFormat(key), content)
  }

  /** The same letter, whatever its case. */
  predicate SameLetter(c: char, lower: char) {
    if 'A' <= c <= 'Z' then lower as int == c as int + 32 else c == lower
  }

  predicate HasExtension(key: string, ext: string) {
    |ext| <= |key| && forall i :: 0 <= i < |ext| ==> SameLetter(key[|key| - |ext| + i], ext[i])
  }

  predicate HasArchiveExtension(key: string) {
    HasExtension(key, ".tar.gz") || HasExtension(key, ".tar.xz") || HasExtension(key, ".tar.zst")
  }

  lemma ExtensionIff(key: string, ext: string)
    ensures EndsWith(ToLower(key), ext) <==> HasExtension(key, ext)
  {
    var lower := ToLower(key);
    if |ext| <= |key| {
      var tail := lower[|key| - |ext|..];
      assert forall i :: 0 <= i < |ext| ==> tail[i] == lower[|key| - |ext| + i];
      assert forall i :: 0 <= i < |ext| ==> (tail[i] == ext[i] <==> SameLetter(key[|key| - |ext| + i], ext[i]));
    }
  }

  /** The format goes by the extension, in either case. */
  lemma FormatIff(key: string)
    ensures DetectFormat(key) == "iso" <==> HasExtension(key, ".iso")
    ensures DetectFormat(key) == "tgz" <==>
      !HasExtension(key, ".iso") && HasArchiveExtension(key)
    ensures DetectFormat(key) == "iso" || DetectFormat(key) == "tgz" || DetectFormat(key) == "raw"
  {
    ExtensionIff(key, ".iso");
    ExtensionIff(key, ".tar.gz");
    ExtensionIff(key, ".tar.xz");
    ExtensionIff(key, ".tar.zst");
    assert "iso"[0] != "tgz"[0] && "raw"[0] != "iso"[0] && "raw"[0] != "tgz"[0];
  }

  // ---- what should be listed ----

  /** A local file by its path under the content directory. */
  datatype LocalFile = LocalFile(rel: string, volname: string, size: nat)

  function ObjectVolume(o: S3Entry, content: string, storage: string): Volume {
    NewVolume(storage, ObjectVolname(content, o.key), o.key, o.size, content)
  }

  function LocalVolume(f: LocalFile, content: string, storage: string): Volume {
    NewVolume(storage, f.volname, ContentToPrefix(content) + f.rel, f.size, content)
  }

  /** A flat object's entry, before its upload (as a local file) and after, is the same, and its volume id,
      the storage's name and a colon before the volume name, leads back to its key. */
  lemma FlatEntryIs(storage: string, content: string, name: string, size: nat)
    requires IsContent(content) && name != "" && '/' !in name
    ensures var key := ContentToPrefix(content) + name;
      var v := ObjectVolume(S3Entry(key, size), content, storage);
      && v == LocalVolume(LocalFile(name, LocalVolname(content, name), size), content, storage)
      && v.volume == storage + ":" + (content + "/" + name) && KeyOf(content + "/" + name) == v.key == key
      && v.size == size && v.content == content && v.format == DetectFormat(key)
  {
    PrefixesEndInSlash(content);
    BaseAfterPrefix(ContentToPrefix(content), name);
    BaseHasNoSlash(name);
    NamedVolume(content, name);
  }

  /** And so it is for a disk image in a VM's directory. */
  lemma ImageEntryIs(storage: string, content: string, vm: string, name: string, size: nat)
    requires content == "images" && vm != "" && AllDigits(vm) && '/' !in vm && name != ""
    ensures var rel := vm + "/" + name;
      var key := ContentToPrefix(content) + rel;
      var v := ObjectVolume(S3Entry(key, size), content, storage);
      && v == LocalVolume(LocalFile(rel, rel, size), content, storage)
      && v.volume == storage + ":" + rel && KeyOf(rel) == v.key == key
      && v.size == size && v.content == content
  {
    ImageResolves(content, vm, name);
    ImageVolname(content, vm + "/" + name);
  }

  lemma ImageVolname(content: string, rel: string)
    requires content == "images"
    ensures ObjectVolname(content, ContentToPrefix(content) + rel) == rel
  {
    TrimPrefixed(ContentToPrefix(content), rel);
  }

  lemma ImageResolves(content: string, vm: string, name: string)
    requires content == "images" && vm != "" && AllDigits(vm) && '/' !in vm && name != ""
    ensures KeyOf(vm + "/" + name) == ContentToPrefix(content) + (vm + "/" + name)
  {
    FirstComponentDecides(vm, name);
  }

  predicate IsMarker(o: S3Entry) { EndsWith(o.key, "/") }

  /** The objects, without directory markers. */
  function FromS3(objects: seq<S3Entry>, content: string, storage: string): seq<Volume> {
    if objects == [] then []
    else
      (if IsMarker(objects[0]) then [] else [ObjectVolume(objects[0], content, storage)])
      + FromS3(objects[1..], content, storage)
  }

  function KeysOf(vs: seq<Volume>): set<string> { set v | v in vs :: v.key }

  /** The files of one VM directory. */
  function VmFile(f: Entry, vm: string): seq<LocalFile> {
    if f.FileEntry? && f.readable then [LocalFile(vm + "/" + f.name, vm + "/" + f.name, f.size)] else []
  }

  function VmFiles(files: seq<Entry>, vm: string): seq<LocalFile> {
    if files == [] then [] else VmFile(files[0], vm) + VmFiles(files[1..], vm)
  }

  function EntryFiles(e: Entry, content: string): seq<LocalFile> {
    match e
    case DirEntry(name, files, readable) =>
      if content == "images" && name != ".meta" && readable then VmFiles(files, name) else []
    case FileEntry(name, size, readable) =>
      if EndsWith(name, ".tmp") || EndsWith(name, ".meta") || !readable then []
      else [LocalFile(name, LocalVolname(content, name), size)]
  }

  /** Every local file eligible for the listing, whatever S3 holds. */
  function LocalFiles(entries: seq<Entry>, content: string): seq<LocalFile> {
    if entries == [] then [] else EntryFiles(entries[0], content) + LocalFiles(entries[1..], content)
  }

  function NotOnS3(files: seq<LocalFile>, content: string, onS3: set<string>, storage: string): seq<Volume> {
    if files == [] then []
    else
      var v := LocalVolume(files[0], content, storage);
      (if v.key in onS3 then [] else [v]) + NotOnS3(files[1..], content, onS3, storage)
  }

  /** With S3 or the directory unreadable, its part is empty. */
  function Listed(objects: Option<seq<S3Entry>>, dir: Option<seq<Entry>>, content: string,
      storage: string): seq<Volume> {
    var remote := if objects.Some? then FromS3(objects.value, content, storage) else [];
    remote + if dir.Some? then NotOnS3(LocalFiles(dir.value, content), content, KeysOf(remote), storage) else []
  }

  // ---- the loops ----

  lemma {:induction false} NotOnS3Append(a: seq<LocalFile>, b: seq<LocalFile>, content: string, onS3: set<string>,
      storage: string)
    ensures NotOnS3(a + b, content, onS3, storage)
      == NotOnS3(a, content, onS3, storage) + NotOnS3(b, content, onS3, storage)
  {
    if a == [] {
      assert a + b == b;
    } else {
      assert (a + b)[1..] == a[1..] + b;
      NotOnS3Append(a[1..], b, content, onS3, storage);
      var v := LocalVolume(a[0], content, storage);
      var first := if v.key in onS3 then [] else [v];
      Regroup(first, NotOnS3(a[1..], content, onS3, storage), NotOnS3(b, content, onS3, storage));
    }
  }

  /** What is still to come after position i. */
  function RestS3(objects: seq<S3Entry>, i: nat, content: string, storage: string): seq<Volume>
    requires i <= |objects|
  {
    FromS3(objects[i..], content, storage)
  }

  lemma S3Step(done: seq<Volume>, objects: seq<S3Entry>, i: nat, content: string, storage: string)
    requires i < |objects|
    ensures done + RestS3(objects, i, content, storage)
      == (if IsMarker(objects[i]) then done else done + [ObjectVolume(objects[i], content, storage)])
        + RestS3(objects, i + 1, content, storage)
  {
    assert objects[i..][1..] == objects[i + 1..];
    var c := if IsMarker(objects[i]) then [] else [ObjectVolume(objects[i], content, storage)];
    Regroup(done, c, RestS3(objects, i + 1, content, storage));
    assert done + [] == done;
  }

  function RestVm(files: seq<Entry>, i: nat, vm: string, onS3: set<string>, storage: string): seq<Volume>
    requires i <= |files|
  {
    NotOnS3(VmFiles(files[i..], vm), "images", onS3, storage)
  }

  lemma VmStep(done: seq<Volume>, files: seq<Entry>, i: nat, vm: string, onS3: set<string>, storage: string)
    requires i < |files|
    ensures done + RestVm(files, i, vm, onS3, storage)
      == (done + NotOnS3(VmFile(files[i], vm), "images", onS3, storage)) + RestVm(files, i + 1, vm, onS3, storage)
  {
    assert files[i..][1..] == files[i + 1..];
    NotOnS3Append(VmFile(files[i], vm), VmFiles(files[i + 1..], vm), "images", onS3, storage);
    Regroup(done, NotOnS3(VmFile(files[i], vm), "images", onS3, storage), RestVm(files, i + 1, vm, onS3, storage));
  }

  function RestLocal(entries: seq<Entry>, i: nat, content: string, onS3: set<string>, storage: string): seq<Volume>
    requires i <= |entries|
  {
    NotOnS3(LocalFiles(entries[i..], content), content, onS3, storage)
  }

  lemma LocalStep(done: seq<Volume>, entries: seq<Entry>, i: nat, content: string, onS3: set<string>, storage: string)
    requires i < |entries|
    ensures done + RestLocal(entries, i, content, onS3, storage)
      == (done + NotOnS3(EntryFiles(entries[i], content), content, onS3, storage))
        + RestLocal(entries, i + 1, content, onS3, storage)
  {
    assert entries[i..][1..] == entries[i + 1..];
    NotOnS3Append(EntryFiles(entries[i], content), LocalFiles(entries[i + 1..], content), content, onS3, storage);
    Regroup(done, NotOnS3(EntryFiles(entries[i], content), content, onS3, storage),
      RestLocal(entries, i + 1, content, onS3, storage));
  }

  lemma NotOnS3One(f: LocalFile, content: string, onS3: set<string>, storage: string)
    ensures var v := LocalVolume(f, content, storage);
      NotOnS3([f], content, onS3, storage) == if v.key in onS3 then [] else [v]
  {}

  /** objects is None when S3 cannot be listed: then the cache alone is. */
  method HandleList(objects: Option<seq<S3Entry>>, dir: Option<seq<Entry>>, content: string, storage: string)
    returns (volumes: seq<Volume>)
    ensures volumes == Listed(objects, dir, content, storage)
  {
    if objects.None? {
      assert KeysOf([]) == {};
      volumes := MergeLocalFiles([], dir, content, storage, {});
      return;
    }
    var s3Keys: set<string> := {};
    volumes := [];
    ghost var all := RestS3(objects.value, 0, content, storage);
    assert objects.value[0..] == objects.value;
    for i := 0 to |objects.value|
      invariant volumes + RestS3(objects.value, i, content, storage) == all
      invariant s3Keys == KeysOf(volumes)
    {
      var obj := objects.value[i];
      S3Step(volumes, objects.value, i, content, storage);
      if EndsWith(obj.key, "/") { continue; }
      KeysOfAppend(volumes, ObjectVolume(obj, content, storage));
      s3Keys := s3Keys + {obj.key};
      var volname := if content == "images" then TrimPrefix(obj.key, ContentToPrefix(content))
        else content + "/" + Base(obj.key);
      volumes := volumes + [NewVolume(storage, volname, obj.key, obj.size, content)];
    }
    assert volumes == all;
    volumes := MergeLocalFiles(volumes, dir, content, storage, s3Keys);
  }

  lemma KeysOfAppend(vs: seq<Volume>, v: Volume)
    ensures KeysOf(vs + [v]) == KeysOf(vs) + {v.key}
  {
    assert v == (vs + [v])[|vs|];
    assert forall u :: u in vs ==> u in vs + [v];
  }

  method MergeLocalFiles(before: seq<Volume>, dir: Option<seq<Entry>>, content: string, storage: string,
      s3Keys: set<string>)
    returns (volumes: seq<Volume>)
    ensures volumes == before + if dir.Some? then NotOnS3(LocalFiles(dir.value, content), content, s3Keys, storage)
      else []
  {
    volumes := before;
    if dir.None? {
      assert before + [] == before;
      return;
    }
    var entries := dir.value;
    ghost var all := before + RestLocal(entries, 0, content, s3Keys, storage);
    assert entries[0..] == entries;
    for i := 0 to |entries|
      invariant volumes + RestLocal(entries, i, content, s3Keys, storage) == all
    {
      LocalStep(volumes, entries, i, content, s3Keys, storage);
      volumes := MergeEntry(volumes, entries[i], content, storage, s3Keys);
    }
  }

  /** The loop's body, for one entry of the content directory. */
  method MergeEntry(before: seq<Volume>, entry: Entry, content: string, storage: string, s3Keys: set<string>)
    returns (volumes: seq<Volume>)
    ensures volumes == before + NotOnS3(EntryFiles(entry, content), content, s3Keys, storage)
  {
    volumes := before;
    if entry.DirEntry? {
      if content == "images" && entry.name != ".meta" && entry.readable {
        volumes := MergeVm(volumes, entry.files, entry.name, storage, s3Keys);
      }
      return;
    }
    if EndsWith(entry.name, ".tmp") || EndsWith(entry.name, ".meta") { return; }
    var key := ContentToPrefix(content) + entry.name;
    NotOnS3One(LocalFile(entry.name, LocalVolname(content, entry.name), entry.size), content, s3Keys, storage);
    if key in s3Keys || !entry.readable { return; }
    volumes := volumes + [NewVolume(storage, content + "/" + entry.name, key, entry.size, content)];
  }

  /** The inner loop, over one VM directory. */
  method MergeVm(before: seq<Volume>, files: seq<Entry>, vm: string, storage: string, s3Keys: set<string>)
    returns (volumes: seq<Volume>)
    ensures volumes == before + NotOnS3(VmFiles(files, vm), "images", s3Keys, storage)
  {
    volumes := before;
    ghost var all := before + RestVm(files, 0, vm, s3Keys, storage);
    assert files[0..] == files;
    for i := 0 to |files|
      invariant volumes + RestVm(files, i, vm, s3Keys, storage) == all
    {
      VmStep(volumes, files, i, vm, s3Keys, storage);
      volumes := MergeVmFile(volumes, files[i], vm, storage, s3Keys);
    }
  }

  method MergeVmFile(before: seq<Volume>, f: Entry, vm: string, storage: string, s3Keys: set<string>)
    returns (volumes: seq<Volume>)
    ensures volumes == before + NotOnS3(VmFile(f, vm), "images", s3Keys, storage)
  {
    volumes := before;
    if f.DirEntry? { return; }
    var volname := vm + "/" + f.name;
    var key := "images/" + volname;
    NotOnS3One(LocalFile(volname, volname, f.size), "images", s3Keys, storage);
    if key in s3Keys || !f.readable { return; }
    volumes := volumes + [NewVolume(storage, volname, key, f.size, "images")];
  }

  // ---- the listing is a duplicate-free union ----

  predicate DistinctKeys(vs: seq<Volume>) { forall i, j :: 0 <= i < j < |vs| ==> vs[i].key != vs[j].key }

  predicate DistinctObjects(objects: seq<S3Entry>) {
    forall i, j :: 0 <= i < j < |objects| ==> objects[i].key != objects[j].key
  }

  predicate DistinctRels(fs: seq<LocalFile>) { forall i, j :: 0 <= i < j < |fs| ==> fs[i].rel != fs[j].rel }

  /** Names in one directory are distinct and contain no slash. */
  predicate WellNamed(entries: seq<Entry>) {
    && (forall i, j :: 0 <= i < j < |entries| ==> entries[i].name != entries[j].name)
    && (forall i :: 0 <= i < |entries| ==> '/' !in entries[i].name)
  }

  predicate WellNamedTree(entries: seq<Entry>) {
    && WellNamed(entries)
    && (forall i :: 0 <= i < |entries| && entries[i].DirEntry? ==> WellNamed(entries[i].files))
  }

  lemma {:induction false} FromS3Lists(objects: seq<S3Entry>, content: string, storage: string)
    ensures forall v :: v in FromS3(objects, content, storage) <==>
      exists o :: o in objects && !IsMarker(o) && v == ObjectVolume(o, content, storage)
  {
    if objects != [] {
      FromS3Lists(objects[1..], content, storage);
      assert forall o :: o in objects <==> o == objects[0] || o in objects[1..];
    }
  }

  lemma {:induction false} FromS3Distinct(objects: seq<S3Entry>, content: string, storage: string)
    requires DistinctObjects(objects)
    ensures DistinctKeys(FromS3(objects, content, storage))
  {
    if objects != [] {
      FromS3Distinct(objects[1..], content, storage);
      FromS3Lists(objects[1..], content, storage);
      forall v | v in FromS3(objects[1..], content, storage) ensures v.key != objects[0].key {
        var k :| 0 <= k < |objects[1..]| && v == ObjectVolume(objects[1..][k], content, storage);
        assert objects[1..][k] == objects[k + 1];
      }
    }
  }

  lemma {:induction false} NotOnS3Lists(fs: seq<LocalFile>, content: string, onS3: set<string>, storage: string)
    ensures forall v :: v in NotOnS3(fs, content, onS3, storage) <==>
      v.key !in onS3 && exists f :: f in fs && v == LocalVolume(f, content, storage)
  {
    if fs != [] {
      NotOnS3Lists(fs[1..], content, onS3, storage);
      assert forall f :: f in fs <==> f == fs[0] || f in fs[1..];
    }
  }

  lemma {:induction false} NotOnS3Distinct(fs: seq<LocalFile>, content: string, onS3: set<string>, storage: string)
    requires DistinctRels(fs)
    ensures DistinctKeys(NotOnS3(fs, content, onS3, storage))
  {
    if fs != [] {
      NotOnS3Distinct(fs[1..], content, onS3, storage);
      NotOnS3Lists(fs[1..], content, onS3, storage);
      forall v | v in NotOnS3(fs[1..], content, onS3, storage)
        ensures v.key != LocalVolume(fs[0], content, storage).key
      {
        var k :| 0 <= k < |fs[1..]| && v == LocalVolume(fs[1..][k], content, storage);
        assert fs[1..][k] == fs[k + 1];
        PrefixCancels(ContentToPrefix(content), fs[0].rel, fs[k + 1].rel);
      }
    }
  }

  /** The entry of the content directory that a local file came from: its first path component. */
  function Top(rel: string): string {
    var c := Cut(rel, '/');
    if c.None? then rel else c.value.0
  }

  lemma {:induction false} VmFilesLists(files: seq<Entry>, vm: string)
    requires WellNamed(files) && '/' !in vm
    ensures forall f :: f in VmFiles(files, vm) ==> Top(f.rel) == vm
    ensures forall f :: f in VmFiles(files, vm) ==> exists k :: 0 <= k < |files| && f.rel == vm + "/" + files[k].name
    ensures DistinctRels(VmFiles(files, vm))
  {
    if files != [] {
      VmFilesLists(files[1..], vm);
      CutFirst(vm, '/', files[0].name);
      forall f | f in VmFiles(files[1..], vm)
        ensures exists k :: 0 <= k < |files| && f.rel == vm + "/" + files[k].name
        ensures f.rel != vm + "/" + files[0].name
      {
        var k :| 0 <= k < |files[1..]| && f.rel == vm + "/" + files[1..][k].name;
        assert files[1..][k] == files[k + 1];
        PrefixCancels(vm + "/", files[k + 1].name, files[0].name);
      }
    }
  }

  lemma EntryFilesTop(e: Entry, content: string)
    requires '/' !in e.name && (e.DirEntry? ==> WellNamed(e.files))
    ensures DistinctRels(EntryFiles(e, content))
    ensures forall f :: f in EntryFiles(e, content) ==> Top(f.rel) == e.name
  {
    if e.DirEntry? { VmFilesLists(e.files, e.name); }
  }

  lemma {:induction false} LocalFilesDistinct(entries: seq<Entry>, content: string)
    requires WellNamedTree(entries)
    ensures DistinctRels(LocalFiles(entries, content))
    ensures forall f :: f in LocalFiles(entries, content) ==>
      exists k :: 0 <= k < |entries| && Top(f.rel) == entries[k].name
  {
    if entries != [] {
      LocalFilesDistinct(entries[1..], content);
      EntryFilesTop(entries[0], content);
      forall f | f in LocalFiles(entries[1..], content)
        ensures exists k :: 0 <= k < |entries| && Top(f.rel) == entries[k].name
        ensures Top(f.rel) != entries[0].name
      {
        var k :| 0 <= k < |entries[1..]| && Top(f.rel) == entries[1..][k].name;
        assert entries[1..][k] == entries[k + 1];
      }
    }
  }

  // ---- what is eligible, read off the directory tree ----

  ghost predicate IsVmFile(files: seq<Entry>, vm: string, f: LocalFile) {
    exists e :: e in files && e.FileEntry? && e.readable && f == LocalFile(vm + "/" + e.name, vm + "/" + e.name, e.size)
  }

  ghost predicate IsTopFile(entries: seq<Entry>, content: string, f: LocalFile) {
    exists e :: e in entries && e.FileEntry? && e.readable && !EndsWith(e.name, ".tmp") && !EndsWith(e.name, ".meta")
      && f == LocalFile(e.name, LocalVolname(content, e.name), e.size)
  }

  /** A readable file: at the top and neither temporary nor metadata, or inside a VM directory of images. */
  ghost predicate Eligible(entries: seq<Entry>, content: string, f: LocalFile) {
    IsTopFile(entries, content, f) || IsInVm(entries, content, f)
  }

  ghost predicate IsInVm(entries: seq<Entry>, content: string, f: LocalFile) {
    content == "images" &&
    exists d :: d in entries && d.DirEntry? && d.readable && d.name != ".meta" && IsVmFile(d.files, d.name, f)
  }

  lemma {:induction false} VmFilesIff(files: seq<Entry>, vm: string, f: LocalFile)
    ensures f in VmFiles(files, vm) <==> IsVmFile(files, vm, f)
  {
    if files != [] {
      VmFilesIff(files[1..], vm, f);
      assert forall e :: e in files <==> e == files[0] || e in files[1..];
    }
  }

  lemma {:induction false} LocalFilesIff(entries: seq<Entry>, content: string, f: LocalFile)
    ensures f in LocalFiles(entries, content) <==> Eligible(entries, content, f)
  {
    if entries != [] {
      LocalFilesIff(entries[1..], content, f);
      assert forall e :: e in entries <==> e == entries[0] || e in entries[1..];
      if entries[0].DirEntry? { VmFilesIff(entries[0].files, entries[0].name, f); }
    }
  }

  ghost predicate IsListedObject(objects: seq<S3Entry>, content: string, storage: string, v: Volume) {
    exists o :: o in objects && !EndsWith(o.key, "/") && v == ObjectVolume(o, content, storage)
  }

  ghost predicate IsListedFile(entries: seq<Entry>, content: string, storage: string, v: Volume) {
    exists f :: Eligible(entries, content, f) && v == LocalVolume(f, content, storage)
  }

  ghost predicate OnS3(objects: seq<S3Entry>, key: string) {
    exists o :: o in objects && !EndsWith(o.key, "/") && o.key == key
  }

  lemma S3KeysIff(objects: seq<S3Entry>, content: string, storage: string, key: string)
    ensures key in KeysOf(FromS3(objects, content, storage)) <==> OnS3(objects, key)
  {
    FromS3Lists(objects, content, storage);
    if OnS3(objects, key) {
      var o :| o in objects && !IsMarker(o) && o.key == key;
      assert ObjectVolume(o, content, storage) in FromS3(objects, content, storage);
    }
  }

  /** Which volumes are listed: the objects, and the eligible files whose key S3 does not hold. */
  lemma ListedIff(objects: seq<S3Entry>, entries: seq<Entry>, content: string, storage: string, v: Volume)
    ensures v in Listed(Some(objects), Some(entries), content, storage) <==>
      IsListedObject(objects, content, storage, v)
      || (IsListedFile(entries, content, storage, v) && !OnS3(objects, v.key))
  {
    var onS3 := KeysOf(FromS3(objects, content, storage));
    FromS3Lists(objects, content, storage);
    NotOnS3Lists(LocalFiles(entries, content), content, onS3, storage);
    S3KeysIff(objects, content, storage, v.key);
    if IsListedFile(entries, content, storage, v) {
      var f :| Eligible(entries, content, f) && v == LocalVolume(f, content, storage);
      LocalFilesIff(entries, content, f);
    }
    if v in NotOnS3(LocalFiles(entries, content), content, onS3, storage) {
      var f :| f in LocalFiles(entries, content) && v == LocalVolume(f, content, storage);
      LocalFilesIff(entries, content, f);
    }
  }

  /** And none is listed twice. */
  lemma ListedOnce(objects: seq<S3Entry>, entries: seq<Entry>, content: string, storage: string)
    requires DistinctObjects(objects) && WellNamedTree(entries)
    ensures DistinctKeys(Listed(Some(objects), Some(entries), content, storage))
  {
    var remote := FromS3(objects, content, storage);
    var local := NotOnS3(LocalFiles(entries, content), content, KeysOf(remote), storage);
    FromS3Distinct(objects, content, storage);
    LocalFilesDistinct(entries, content);
    NotOnS3Distinct(LocalFiles(entries, content), content, KeysOf(remote), storage);
    NotOnS3Lists(LocalFiles(entries, content), content, KeysOf(remote), storage);
    DistinctUnion(remote, local);
  }

  lemma DistinctUnion(a: seq<Volume>, b: seq<Volume>)
    requires DistinctKeys(a) && DistinctKeys(b) && forall v :: v in b ==> v.key !in KeysOf(a)
    ensures DistinctKeys(a + b)
  {
    forall i, j | 0 <= i < j < |a + b| ensures (a + b)[i].key != (a + b)[j].key {
      if i < |a| <= j { assert b[j - |a|] in b && a[i] in a && a[i].key in KeysOf(a); }
    }
  }
}
