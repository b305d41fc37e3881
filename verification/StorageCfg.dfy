/** ParseStorageCfg (internal/config/config.go): the one-pass loop over the lines of storage.cfg,
    against a declarative reading of the file. */
module StorageCfg {
  import opened Metadata
  import opened Text

  datatype Storage = Storage(
    id: string, bucket: string, endpoint: string, region: string, useSSL: bool, pathStyle: bool,
    cacheMaxAge: int, partSizeMB: int)

  function NewStorage(name: string): Storage {
    Storage(name, "", "", "us-east-1", true, false, 0, 0)
  }

  datatype Property = Property(key: string, val: string)

  /** What one raw line is. */
  datatype Line = Skipped | Header(kind: string, name: string) | Assign(p: Property)

  predicate IsIndented(raw: string) { HasPrefix(raw, "\t") || HasPrefix(raw, " ") }

  function Classify(raw: string): Line {
    var line := TrimSpace(raw);
    if line == "" || HasPrefix(line, "#") then Skipped
    else if !IsIndented(raw) then
      var parts := Cut(line, ':');
      if parts.None? then Skipped else Header(TrimSpace(parts.value.0), TrimSpace(parts.value.1))
    else
      var parts := Cut(line, ' ');
      if parts.None? then Skipped else Assign(Property(TrimSpace(parts.value.0), TrimSpace(parts.value.1)))
  }

  function CleanEndpoint(val: string): string {
    TrimSlashes(TrimPrefix(TrimPrefix(val, "https://"), "http://"))
  }

  predicate IsTrue(val: string) { val == "1" || val == "yes" || val == "true" }

  /** One property line of a section. */
  function Set(s: Storage, p: Property): Storage {
    if p.key == "endpoint" then s.(endpoint := CleanEndpoint(p.val))
    else if p.key == "bucket" then s.(bucket := p.val)
    else if p.key == "region" then s.(region := p.val)
    else if p.key == "use-ssl" then s.(useSSL := IsTrue(p.val))
    else if p.key == "path-style" then s.(pathStyle := IsTrue(p.val))
    else if p.key == "cache-max-age" then (if IsDays(p.val) then s.(cacheMaxAge := ParseInt(p.val).value) else s)
    else if p.key == "part-size-mb" then (if IsPartSize(p.val) then s.(partSizeMB := ParseInt(p.val).value) else s)
    else s
  }

  predicate IsDays(val: string) { ParseInt(val).Some? && ParseInt(val).value >= 0 }

  predicate IsPartSize(val: string) { ParseInt(val).Some? && ParseInt(val).value > 0 }

  // ---- the declarative reading ----

  /** The lines up to the next header. */
  function Body(lines: seq<Line>): (b: seq<Line>)
    ensures b <= lines && (forall i :: 0 <= i < |b| ==> !b[i].Header?) && (|b| < |lines| ==> lines[|b|].Header?)
  {
    if lines == [] || lines[0].Header? then [] else [lines[0]] + Body(lines[1..])
  }

  function Properties(lines: seq<Line>): seq<Property> {
    if lines == [] then [] else (if lines[0].Assign? then [lines[0].p] else []) + Properties(lines[1..])
  }

  datatype Section = Section(kind: string, name: string, props: seq<Property>)

  /** A section is a header with the properties up to the next header (or the end). */
  function Sections(lines: seq<Line>): seq<Section> {
    if lines == [] then []
    else if lines[0].Header? then
      [Section(lines[0].kind, lines[0].name, Properties(Body(lines[1..])))] + Sections(lines[1..])
    else Sections(lines[1..])
  }

  /** Numbers that do not parse, or are out of range, do not count as given. */
  predicate Accepts(key: string, val: string) {
    if key == "cache-max-age" then IsDays(val) else if key == "part-size-mb" then IsPartSize(val) else true
  }

  /** The last acceptable value given for a key. */
  function Last(props: seq<Property>, key: string): Option<string> {
    if props == [] then None
    else
      var p := props[|props| - 1];
      if p.key == key && Accepts(key, p.val) then Some(p.val) else Last(props[..|props| - 1], key)
  }

  function Or<T>(o: Option<T>, default: T): T { if o.Some? then o.value else default }

  function NumberOr0(o: Option<string>): int { if o.Some? then Or(ParseInt(o.value), 0) else 0 }

  /** A section as a record: for each field the last acceptable value, else the default. */
  function Read(name: string, props: seq<Property>): Storage {
    var endpoint := Last(props, "endpoint");
    var ssl := Last(props, "use-ssl");
    var style := Last(props, "path-style");
    Storage(
      name,
      Or(Last(props, "bucket"), ""),
      if endpoint.Some? then CleanEndpoint(endpoint.value) else "",
      Or(Last(props, "region"), "us-east-1"),
      if ssl.Some? then IsTrue(ssl.value) else true,
      if style.Some? then IsTrue(style.value) else false,
      NumberOr0(Last(props, "cache-max-age")),
      NumberOr0(Last(props, "part-size-mb")))
  }

  /** The s3 sections, in file order. */
  function Storages(sections: seq<Section>): seq<Storage> {
    if sections == [] then []
    else
      (if sections[0].kind == "s3" then [Read(sections[0].name, sections[0].props)] else []) + Storages(sections[1..])
  }

  function Lines(raw: seq<string>): seq<Line> {
    seq(|raw|, i requires 0 <= i < |raw| => Classify(raw[i]))
  }

  // ---- the loop ----

  lemma LastOneMore(props: seq<Property>, p: Property, key: string)
    ensures Last(props + [p], key) == if p.key == key && Accepts(key, p.val) then Some(p.val) else Last(props, key)
  {
    assert (props + [p])[..|props|] == props;
  }

  lemma ReadOneMore(name: string, props: seq<Property>, p: Property)
    ensures Read(name, props + [p]) == Set(Read(name, props), p)
  {
    LastOneMore(props, p, "bucket");
    LastOneMore(props, p, "endpoint");
    LastOneMore(props, p, "region");
    LastOneMore(props, p, "use-ssl");
    LastOneMore(props, p, "path-style");
    LastOneMore(props, p, "cache-max-age");
    LastOneMore(props, p, "part-size-mb");
  }

  /** Applying properties one by one, left to right. */
  function SetAll(s: Storage, props: seq<Property>): Storage
    decreases |props|
  {
    if props == [] then s else SetAll(Set(s, props[0]), props[1..])
  }

  lemma {:induction false} SetAllReads(name: string, done: seq<Property>, props: seq<Property>)
    ensures SetAll(Read(name, done), props) == Read(name, done + props)
    decreases |props|
  {
    if props == [] {
      assert done + props == done;
    } else {
      var p, more := props[0], props[1..];
      ReadOneMore(name, done, p);
      SetAllReads(name, done + [p], more);
      assert done + [p] + more == done + props;
    }
  }

  /** Reading a section line by line ends where reading it as a whole does: the last acceptable
      value wins. */
  lemma FoldIsLastWins(name: string, props: seq<Property>)
    ensures SetAll(NewStorage(name), props) == Read(name, props)
  {
    assert Read(name, []) == NewStorage(name);
    SetAllReads(name, [], props);
    assert [] + props == props;
  }

  lemma SetFirst(s: Storage, p: Property, more: seq<Property>)
    ensures SetAll(s, [p] + more) == SetAll(Set(s, p), more)
  {
    assert ([p] + more)[1..] == more;
  }

  // ---- what is written is read back ----

  function Printed(p: Property): string { "\t" + (p.key + " " + p.val) }

  function Where(s: Storage): seq<Property> { [Property("endpoint", s.endpoint), Property("bucket", s.bucket)] }

  function Switch(on: bool): string { if on then "1" else "0" }

  function How(s: Storage): seq<Property> { [Property("region", s.region), Property("use-ssl", Switch(s.useSSL))] }

  function Kept(s: Storage): seq<Property>
    requires s.cacheMaxAge >= 0
  {
    [Property("path-style", Switch(s.pathStyle)), Property("cache-max-age", Decimal(s.cacheMaxAge))]
  }

  function Parts(s: Storage): seq<Property> {
    if s.partSizeMB > 0 then [Property("part-size-mb", Decimal(s.partSizeMB))] else []
  }

  function PropertiesOf(s: Storage): seq<Property>
    requires s.cacheMaxAge >= 0
  {
    Where(s) + (How(s) + (Kept(s) + Parts(s)))
  }

  function PrintProperties(ps: seq<Property>): seq<string> {
    if ps == [] then [] else [Printed(ps[0])] + PrintProperties(ps[1..])
  }

  function HeaderOf(kind: string, name: string): string { kind + ":" + (" " + name) }

  /** storage.cfg as PVE writes it. */
  function Print(ss: seq<Storage>): seq<string>
    requires forall i :: 0 <= i < |ss| ==> Printable(ss[i])
  {
    if ss == [] then []
    else
      assert Printable(ss[0]);
      [HeaderOf("s3", ss[0].id)] + PrintProperties(PropertiesOf(ss[0])) + Print(ss[1..])
  }

  /** No surrounding white space, no numbers outside int64, and an endpoint without scheme or trailing slash. */
  predicate Printable(s: Storage) {
    && Trimmed(s.id) && Trimmed(s.bucket) && Trimmed(s.region)
    && Trimmed(s.endpoint) && CleanEndpoint(s.endpoint) == s.endpoint
    && 0 <= s.cacheMaxAge <= 0x7fff_ffff_ffff_ffff && 0 <= s.partSizeMB <= 0x7fff_ffff_ffff_ffff
  }

  predicate IsKey(key: string) { Trimmed(key) && ' ' !in key && key[0] != '#' }

  lemma PrintedIsAssign(p: Property)
    requires IsKey(p.key) && Trimmed(p.val)
    ensures Classify(Printed(p)) == Assign(p)
  {
    PrintedIsTrimmed(p);
    CutFirst(p.key, ' ', p.val);
    TrimmedStays(p.key);
    TrimmedStays(p.val);
  }

  lemma PrintedIsTrimmed(p: Property)
    requires IsKey(p.key) && Trimmed(p.val)
    ensures var line := TrimSpace(Printed(p));
      line == p.key + [' '] + p.val && line[0] == p.key[0] && IsIndented(Printed(p))
  {
    var line := p.key + " " + p.val;
    assert line == p.key + [' '] + p.val;
    assert Printed(p) == "\t" + line + "";
    assert line[0] == p.key[0] && line[|line| - 1] == p.val[|p.val| - 1];
    TrimSpaceStrips("\t", line, "");
  }

  lemma HeaderIsHeader(kind: string, name: string)
    requires Trimmed(kind) && ':' !in kind && kind[0] != '#' && Trimmed(name)
    ensures Classify(HeaderOf(kind, name)) == Header(kind, name)
  {
    HeaderIsTrimmed(kind, name);
    CutFirst(kind, ':', " " + name);
    TrimmedStays(kind);
    assert " " + name + "" == " " + name;
    TrimSpaceStrips(" ", name, "");
  }

  lemma HeaderIsTrimmed(kind: string, name: string)
    requires Trimmed(kind) && Trimmed(name)
    ensures var line := TrimSpace(HeaderOf(kind, name));
      line == kind + [':'] + (" " + name) && line[0] == kind[0] && !IsIndented(HeaderOf(kind, name))
  {
    var line := HeaderOf(kind, name);
    assert line == kind + [':'] + (" " + name);
    assert line[0] == kind[0] && line[|line| - 1] == name[|name| - 1];
    TrimmedStays(line);
  }

  function Assigns(ps: seq<Property>): seq<Line> {
    if ps == [] then [] else [Assign(ps[0])] + Assigns(ps[1..])
  }

  lemma LinesAppend(a: seq<string>, b: seq<string>)
    ensures Lines(a + b) == Lines(a) + Lines(b)
  {
  }

  lemma {:induction false} LinesOfProperties(ps: seq<Property>)
    requires AllKeys(ps)
    ensures Lines(PrintProperties(ps)) == Assigns(ps)
  {
    if ps != [] {
      PrintedIsAssign(ps[0]);
      LinesOfProperties(ps[1..]);
      LinesAppend([Printed(ps[0])], PrintProperties(ps[1..]));
      assert Lines([Printed(ps[0])]) == [Assign(ps[0])];
    }
  }

  /** A section's properties are its own, up to the next header. */
  lemma {:induction false} BodyOfAssigns(ps: seq<Property>, rest: seq<Line>)
    requires rest == [] || rest[0].Header?
    ensures Properties(Body(Assigns(ps) + rest)) == ps
    ensures Sections(Assigns(ps) + rest) == Sections(rest)
  {
    if ps == [] {
      assert Assigns(ps) + rest == rest;
    } else {
      assert (Assigns(ps) + rest)[0] == Assign(ps[0]) && (Assigns(ps) + rest)[1..] == Assigns(ps[1..]) + rest;
      BodyOfAssigns(ps[1..], rest);
      assert [ps[0]] + ps[1..] == ps;
      assert ([Assign(ps[0])] + Body(Assigns(ps[1..]) + rest))[1..] == Body(Assigns(ps[1..]) + rest);
    }
  }

  /** A section of any kind: an s3 one is read as a storage, any other is passed over with its properties. */
  lemma SectionReads(kind: string, name: string, ps: seq<Property>, rest: seq<Line>)
    requires rest == [] || rest[0].Header?
    ensures Storages(Sections([Header(kind, name)] + (Assigns(ps) + rest)))
      == (if kind == "s3" then [Read(name, ps)] else []) + Storages(Sections(rest))
  {
    var all := [Header(kind, name)] + (Assigns(ps) + rest);
    assert all[1..] == Assigns(ps) + rest;
    BodyOfAssigns(ps, rest);
    assert Sections(all)[0] == Section(kind, name, ps) && Sections(all)[1..] == Sections(rest);
  }

  /** Lines that are empty or comments say nothing. */
  lemma CommentsSkipped(line: string)
    ensures TrimSpace(line) == "" || TrimSpace(line)[0] == '#' ==> Classify(line).Skipped?
  {
  }

  lemma SetTwo(s: Storage, ps: seq<Property>, more: seq<Property>, t: Storage)
    requires |ps| == 2 && Set(Set(s, ps[0]), ps[1]) == t
    ensures SetAll(s, ps + more) == SetAll(t, more)
  {
    assert (ps + more)[1..] == ps[1..] + more && (ps[1..] + more)[1..] == more;
  }

  lemma WhereSets(s: Storage, t: Storage)
    requires Printable(s)
    ensures Set(Set(t, Where(s)[0]), Where(s)[1]) == t.(endpoint := s.endpoint, bucket := s.bucket)
  {
  }

  lemma HowSets(s: Storage, t: Storage)
    requires Printable(s)
    ensures Set(Set(t, How(s)[0]), How(s)[1]) == t.(region := s.region, useSSL := s.useSSL)
  {
  }

  lemma KeptSets(s: Storage, t: Storage)
    requires Printable(s)
    ensures Set(Set(t, Kept(s)[0]), Kept(s)[1]) == t.(pathStyle := s.pathStyle, cacheMaxAge := s.cacheMaxAge)
  {
    ParsesDecimal(s.cacheMaxAge);
  }

  lemma PartsSet(s: Storage, t: Storage)
    requires Printable(s) && t.partSizeMB == 0
    ensures SetAll(t, Parts(s)) == t.(partSizeMB := s.partSizeMB)
  {
    ParsesDecimal(s.partSizeMB);
  }

  /** A storage's properties make it what it is. */
  lemma PropertiesMake(s: Storage)
    requires Printable(s)
    ensures Read(s.id, PropertiesOf(s)) == s
  {
    FoldIsLastWins(s.id, PropertiesOf(s));
    var t := NewStorage(s.id);
    WhereSets(s, t);
    var t1 := t.(endpoint := s.endpoint, bucket := s.bucket);
    SetTwo(t, Where(s), How(s) + (Kept(s) + Parts(s)), t1);
    HowSets(s, t1);
    var t2 := t1.(region := s.region, useSSL := s.useSSL);
    SetTwo(t1, How(s), Kept(s) + Parts(s), t2);
    KeptSets(s, t2);
    var t3 := t2.(pathStyle := s.pathStyle, cacheMaxAge := s.cacheMaxAge);
    SetTwo(t2, Kept(s), Parts(s), t3);
    PartsSet(s, t3);
  }

  predicate AllKeys(ps: seq<Property>) { forall i :: 0 <= i < |ps| ==> IsKey(ps[i].key) && Trimmed(ps[i].val) }

  lemma WhereKeys(s: Storage)
    requires Printable(s)
    ensures AllKeys(Where(s)) && AllKeys(How(s))
  {
  }

  lemma KeptKeys(s: Storage)
    requires Printable(s)
    ensures AllKeys(Kept(s))
  {
    DecimalIsNatural(s.cacheMaxAge);
    DigitsAreTrimmed(Decimal(s.cacheMaxAge));
    StyleIsKey();
    AgeIsKey();
  }

  lemma StyleIsKey()
    ensures IsKey("path-style") && Trimmed("1") && Trimmed("0")
  {
  }

  lemma AgeIsKey()
    ensures IsKey("cache-max-age")
  {
  }

  lemma PartsKeys(s: Storage)
    requires Printable(s)
    ensures AllKeys(Parts(s))
  {
    DecimalIsNatural(s.partSizeMB);
    DigitsAreTrimmed(Decimal(s.partSizeMB));
  }

  lemma AllKeysAppend(a: seq<Property>, b: seq<Property>)
    requires AllKeys(a) && AllKeys(b)
    ensures AllKeys(a + b)
  {
  }

  lemma PropertiesAreKeys(s: Storage)
    requires Printable(s)
    ensures AllKeys(PropertiesOf(s))
  {
    WhereKeys(s);
    KeptKeys(s);
    PartsKeys(s);
    AllKeysAppend(Kept(s), Parts(s));
    AllKeysAppend(How(s), Kept(s) + Parts(s));
    AllKeysAppend(Where(s), How(s) + (Kept(s) + Parts(s)));
  }

  lemma DigitsAreTrimmed(s: string)
    requires s != "" && AllDigits(s)
    ensures Trimmed(s)
  {
    assert IsDigit(s[0]) && IsDigit(s[|s| - 1]);
  }

  /** Reading back what PVE writes gives the storages written, every property of every one, in order. */
  lemma {:induction false} ParsesWhatIsPrinted(ss: seq<Storage>)
    requires forall i :: 0 <= i < |ss| ==> Printable(ss[i])
    ensures Storages(Sections(Lines(Print(ss)))) == ss
    ensures Lines(Print(ss)) == [] || Lines(Print(ss))[0].Header?
  {
    if ss != [] {
      var s, more := ss[0], Print(ss[1..]);
      PropertiesAreKeys(s);
      PropertiesMake(s);
      ParsesWhatIsPrinted(ss[1..]);
      StorageReads(s, PropertiesOf(s), more);
      assert Print(ss) == [HeaderOf("s3", s.id)] + PrintProperties(PropertiesOf(s)) + more;
      assert [s] + ss[1..] == ss;
    }
  }

  lemma StorageReads(s: Storage, ps: seq<Property>, more: seq<string>)
    requires Trimmed(s.id) && AllKeys(ps) && Read(s.id, ps) == s
    requires Lines(more) == [] || Lines(more)[0].Header?
    ensures var all := Lines([HeaderOf("s3", s.id)] + PrintProperties(ps) + more);
      all != [] && all[0].Header? && Storages(Sections(all)) == [s] + Storages(Sections(Lines(more)))
  {
    HeaderIsHeader("s3", s.id);
    LinesOfProperties(ps);
    SectionLines(HeaderOf("s3", s.id), PrintProperties(ps), more, Header("s3", s.id), Assigns(ps));
    SectionReads("s3", s.id, ps, Lines(more));
  }

  lemma SectionLines(h: string, printed: seq<string>, more: seq<string>, l: Line, body: seq<Line>)
    requires Classify(h) == l && Lines(printed) == body
    ensures Lines([h] + printed + more) == [l] + (body + Lines(more))
  {
    LinesAppend([h] + printed, more);
    LinesAppend([h], printed);
    assert Lines([h]) == [l];
    Regroup([l], body, Lines(more));
  }

  /** Without properties, the defaults. */
  lemma DefaultsAre(name: string, rest: seq<Line>)
    requires rest == [] || rest[0].Header?
    ensures Storages(Sections([Header("s3", name)] + rest))
      == [Storage(name, "", "", "us-east-1", true, false, 0, 0)] + Storages(Sections(rest))
  {
    SectionReads("s3", name, [], rest);
    assert Assigns([]) + rest == rest;
  }

  function Slashes(n: nat): string { if n == 0 then "" else Slashes(n - 1) + "/" }

  lemma {:induction false} SlashesGo(host: string, n: nat)
    requires host != "" && host[|host| - 1] != '/'
    ensures TrimSlashes(host + Slashes(n)) == host
  {
    if n == 0 {
      assert host + Slashes(0) == host;
    } else {
      var s := host + Slashes(n);
      assert s[..|s| - 1] == host + Slashes(n - 1);
      SlashesGo(host, n - 1);
    }
  }

  lemma SchemeGoes(scheme: string, rest: string)
    requires scheme == "" || scheme == "https://" || scheme == "http://"
    requires !HasPrefix(rest, "https://") && !HasPrefix(rest, "http://")
    ensures TrimPrefix(TrimPrefix(scheme + rest, "https://"), "http://") == rest
  {
    var s := scheme + rest;
    assert s[|scheme|..] == rest;
    if scheme == "" {
      assert s == rest;
    } else if scheme == "http://" {
      assert s[4] == ':';
    } else {
      assert HasPrefix(s, "https://");
    }
  }

  /** An endpoint may be given with either scheme and any number of trailing slashes. */
  lemma EndpointIsCleaned(scheme: string, host: string, n: nat)
    requires scheme == "" || scheme == "https://" || scheme == "http://"
    requires host != "" && host[|host| - 1] != '/'
    requires !HasPrefix(host + Slashes(n), "https://") && !HasPrefix(host + Slashes(n), "http://")
    ensures CleanEndpoint(scheme + (host + Slashes(n))) == host
  {
    SchemeGoes(scheme, host + Slashes(n));
    SlashesGo(host, n);
  }

  lemma BadAgeIgnored(s: Storage, p: Property)
    requires p.key == "cache-max-age" && (ParseInt(p.val).None? || ParseInt(p.val).value < 0)
    ensures Set(s, p) == s
  {
  }

  lemma BadPartsIgnored(s: Storage, p: Property)
    requires p.key == "part-size-mb" && (ParseInt(p.val).None? || ParseInt(p.val).value <= 0)
    ensures Set(s, p) == s
  {
  }

  /** "1", "yes" and "true" switch on, anything else off. */
  lemma SwitchedOnIff(s: Storage, val: string)
    ensures Set(s, Property("use-ssl", val)).useSSL <==> val in ["1", "yes", "true"]
    ensures Set(s, Property("path-style", val)).pathStyle <==> val in ["1", "yes", "true"]
  {
  }

  // ---- the loop, line by line ----

  /** The storages still to come from the lines left, with current open. */
  function Pending(current: Option<Storage>, rest: seq<Line>): seq<Storage> {
    (if current.Some? then [SetAll(current.value, Properties(Body(rest)))] else []) + Storages(Sections(rest))
  }

  /** What a line saves, and the section it leaves open. */
  function OnLine(current: Option<Storage>, l: Line): (seq<Storage>, Option<Storage>) {
    match l
    case Skipped => ([], current)
    case Assign(p) => ([], if current.Some? then Some(Set(current.value, p)) else None)
    case Header(kind, name) =>
      (if current.Some? then [current.value] else [], if kind == "s3" then Some(NewStorage(name)) else None)
  }

  lemma PendingStep(current: Option<Storage>, rest: seq<Line>)
    requires rest != []
    ensures Pending(current, rest) == OnLine(current, rest[0]).0 + Pending(OnLine(current, rest[0]).1, rest[1..])
  {
    if rest[0].Header? {
      FoldIsLastWins(rest[0].name, Properties(Body(rest[1..])));
      assert Sections(rest)[1..] == Sections(rest[1..]);
    } else {
      var more := Properties(Body(rest[1..]));
      assert Body(rest)[1..] == Body(rest[1..]);
      assert Properties(Body(rest)) == (if rest[0].Assign? then [rest[0].p] else []) + more;
      assert [] + more == more;
      assert Sections(rest) == Sections(rest[1..]);
      if rest[0].Assign? && current.Some? { SetFirst(current.value, rest[0].p, more); }
      var later := Pending(OnLine(current, rest[0]).1, rest[1..]);
      assert [] + later == later;
    }
  }

  /** The one-pass loop: current is the open s3 section, saved at the next header or the end. */
  method ParseStorageCfg(raw: seq<string>) returns (storages: seq<Storage>)
    ensures storages == Storages(Sections(Lines(raw)))
  {
    storages := [];
    var current: Option<Storage> := None;
    ghost var all := Lines(raw);
    assert all[0..] == all;
    for i := 0 to |raw|
      invariant storages + Pending(current, all[i..]) == Storages(Sections(all))
    {
      PendingStep(current, all[i..]);
      assert all[i..][0] == Classify(raw[i]) && all[i..][1..] == all[i + 1..];
      ghost var (saved, next) := OnLine(current, Classify(raw[i]));
      Regroup(storages, saved, Pending(next, all[i + 1..]));
      storages, current := ReadLine(raw[i], storages, current);
    }
    if current.Some? { storages := storages + [current.value]; }
  }

  /** The body of the loop. */
  method ReadLine(raw: string, saved: seq<Storage>, open_: Option<Storage>)
      returns (storages: seq<Storage>, current: Option<Storage>)
    ensures storages == saved + OnLine(open_, Classify(raw)).0 && current == OnLine(open_, Classify(raw)).1
  {
    storages, current := saved, open_;
    var line := TrimSpace(raw);
    if line == "" || HasPrefix(line, "#") { return; }
    var isProperty := IsIndented(raw);
    if !isProperty && ':' in line {
      if current.Some? { storages := storages + [current.value]; }
      current := None;
      var parts := Cut(line, ':').value;
      var stype := TrimSpace(parts.0);
      var sname := TrimSpace(parts.1);
      if stype == "s3" { current := Some(NewStorage(sname)); }
      return;
    }
    if isProperty && current.Some? {
      var parts := Cut(line, ' ');
      if parts.None? { return; }
      current := Some(Set(current.value, Property(TrimSpace(parts.value.0), TrimSpace(parts.value.1))));
    }
  }
}
