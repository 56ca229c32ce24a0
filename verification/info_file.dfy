/** src/info_file.rs: the descriptive files of a connection directory. */
module InfoFile {
  import opened Common
  import opened FileTree

  /** Descriptor types of the HID specification 1.11, section 7.1. */
  const REPORT: Byte := 0x22
  const PHYSICAL: Byte := 0x23

  datatype ClassDescriptor = ClassDescriptor(kind: Byte, data: Bytes)

  datatype Configuration = Configuration(
    serviceName: Option<Bytes>,
    serviceDescription: Option<Bytes>,
    providerName: Option<Bytes>,
    deviceSubclass: Bytes,
    classDescriptors: seq<ClassDescriptor>)

  datatype RegistrationInfo = RegistrationInfo(registrant: nat, sdpRecord: Bytes, configuration: Configuration)

  datatype Entry = Entry(name: FileName, data: Bytes)

  function OptionalEntry(name: FileName, data: Option<Bytes>): seq<Entry> {
    if data.Some? then [Entry(name, data.value)] else []
  }

  function DescriptorEntries(ds: seq<ClassDescriptor>): seq<Entry> {
    if ds == [] then []
    else
      var d := ds[|ds| - 1];
      DescriptorEntries(ds[..|ds| - 1]) +
      if d.kind == REPORT then [Entry(ReportDescriptor, d.data)]
      else if d.kind == PHYSICAL then [Entry(PhysicalDescriptor, d.data)]
      else []
  }

  /** The writes of one registration, in order. */
  function InfoPlan(info: RegistrationInfo): seq<Entry> {
    FixedEntries(info) + DescriptorEntries(info.configuration.classDescriptors)
  }

  function FixedEntries(info: RegistrationInfo): seq<Entry> {
    [Entry(SdpXml, info.sdpRecord)]
    + OptionalEntry(ServiceName, info.configuration.serviceName)
    + OptionalEntry(ServiceDescription, info.configuration.serviceDescription)
    + OptionalEntry(ProviderName, info.configuration.providerName)
    + [Entry(DeviceSubclass, info.configuration.deviceSubclass)]
  }

  function EntryPaths(base: Path, es: seq<Entry>): (ps: seq<Path>)
    ensures |ps| == |es| && forall k | 0 <= k < |ps| :: ps[k] == base + [es[k].name]
  {
    seq(|es|, k requires 0 <= k < |es| => base + [es[k].name])
  }

  function WriteEntries(t: Tree, base: Path, es: seq<Entry>): Tree {
    if es == [] then t
    else
      var e := es[|es| - 1];
      WriteEntries(t, base, es[..|es| - 1])[base + [e.name] := File(e.data)]
  }

  /** The contents a name ends up with: those of its last entry. */
  function Latest(es: seq<Entry>, name: FileName): Option<Bytes> {
    if es == [] then None
    else if es[|es| - 1].name == name then Some(es[|es| - 1].data)
    else Latest(es[..|es| - 1], name)
  }

  predicate Names(es: seq<Entry>, name: FileName) {
    exists k :: 0 <= k < |es| && es[k].name == name
  }

  lemma {:induction false} LatestNames(es: seq<Entry>, name: FileName)
    ensures Latest(es, name).Some? <==> Names(es, name)
  {
    if es != [] {
      var init := es[..|es| - 1];
      LatestNames(init, name);
      if Names(es, name) && es[|es| - 1].name != name {
        var k :| 0 <= k < |es| && es[k].name == name;
        assert init[k].name == name;
      }
      if Names(init, name) {
        var k :| 0 <= k < |init| && init[k].name == name;
        assert es[k].name == name;
      }
    }
  }

  lemma {:induction false} LatestOfConcat(a: seq<Entry>, b: seq<Entry>, name: FileName)
    ensures Latest(a + b, name) == if Latest(b, name).Some? then Latest(b, name) else Latest(a, name)
  {
    if b == [] {
      assert a + b == a;
    } else {
      assert (a + b)[..|a + b| - 1] == a + b[..|b| - 1];
      LatestOfConcat(a, b[..|b| - 1], name);
    }
  }

  /** Writing a plan changes exactly the planned names, each to its latest data. */
  lemma {:induction false} WriteEntriesAt(t: Tree, base: Path, es: seq<Entry>, p: Path)
    ensures |p| == |base| + 1 && p[..|base|] == base && Latest(es, p[|base|]).Some? ==>
              At(WriteEntries(t, base, es), p) == Some(File(Latest(es, p[|base|]).value))
    ensures !(|p| == |base| + 1 && p[..|base|] == base && Latest(es, p[|base|]).Some?) ==>
              At(WriteEntries(t, base, es), p) == At(t, p)
    ensures p in EntryPaths(base, es) <==> |p| == |base| + 1 && p[..|base|] == base && Latest(es, p[|base|]).Some?
  {
    if es != [] {
      var init := es[..|es| - 1];
      WriteEntriesAt(t, base, init, p);
      var written := base + [es[|es| - 1].name];
      assert p == written <==> |p| == |base| + 1 && p[..|base|] == base && p[|base|] == es[|es| - 1].name;
      assert EntryPaths(base, es) == EntryPaths(base, init) + [written];
    }
  }

  /** Created by one successful plan and dropped again: nothing remains and
      nothing else changed, duplicate owners of one path included. */
  lemma DroppingRestores(t: Tree, base: Path, es: seq<Entry>)
    requires forall p | p in EntryPaths(base, es) :: p !in t
    ensures RemoveAll(WriteEntries(t, base, es), EntryPaths(base, es)) == t
  {
    var after := RemoveAll(WriteEntries(t, base, es), EntryPaths(base, es));
    forall p
      ensures At(after, p) == At(t, p)
    {
      RemoveAllAt(WriteEntries(t, base, es), EntryPaths(base, es), p);
      WriteEntriesAt(t, base, es, p);
    }
    SameTree(after, t);
  }

  lemma SameTree(a: Tree, b: Tree)
    requires forall p :: At(a, p) == At(b, p)
    ensures a == b
  {
    forall p
      ensures p in a <==> p in b
      ensures p in a ==> a[p] == b[p]
    {
      assert At(a, p) == At(b, p);
    }
  }

  /** One failing write after `done` successful ones removes all of them. */
  lemma FailingWriteCleans(start: Tree, base: Path, done: seq<Entry>, e: Entry)
    requires forall p | p in EntryPaths(base, done) :: At(start, p) != Some(Directory)
    ensures RemoveAll(RemoveFile(WriteEntries(start, base, done), base + [e.name]), EntryPaths(base, done))
         == RemoveAll(start, EntryPaths(base, done + [e]))
  {
    var failed := RemoveFile(WriteEntries(start, base, done), base + [e.name]);
    assert EntryPaths(base, done + [e]) == EntryPaths(base, done) + [base + [e.name]];
    forall p
      ensures At(RemoveAll(failed, EntryPaths(base, done)), p)
           == At(RemoveAll(start, EntryPaths(base, done + [e])), p)
    {
      RemoveAllAt(failed, EntryPaths(base, done), p);
      RemoveAllAt(start, EntryPaths(base, done + [e]), p);
      WriteEntriesAt(start, base, done, p);
    }
    SameTree(RemoveAll(failed, EntryPaths(base, done)), RemoveAll(start, EntryPaths(base, done + [e])));
  }

  ghost predicate Written(fs: FileSystem, files: seq<Owner>, start: Tree, base: Path, done: seq<Entry>)
    reads fs
  {
    && fs.tree == WriteEntries(start, base, done)
    && PathsOf(files) == EntryPaths(base, done)
    && forall p | p in EntryPaths(base, done) :: At(start, p) != Some(Directory)
  }

  /** A directory in which every file of the daemon can be written. */
  ghost predicate Hosting(t: Tree, base: Path) {
    At(t, base) == Some(Directory) && forall n: FileName | base + [n] in t :: t[base + [n]].File?
  }

  lemma HostsWrites(t: Tree, base: Path, es: seq<Entry>, n: FileName)
    requires Hosting(t, base)
    ensures CanWrite(WriteEntries(t, base, es), base + [n])
  {
    WriteEntriesAt(t, base, es, base);
    WriteEntriesAt(t, base, es, base + [n]);
    assert (base + [n])[..|base|] == base;
  }

  /** Writes one file and pushes its owner; on failure the whole vector is dropped. */
  method PushInfoFile(fs: FileSystem, base: Path, files: seq<Owner>, name: FileName, data: Bytes,
                      ghost start: Tree, ghost done: seq<Entry>)
    returns (r: Result<seq<Owner>, IoError>)
    requires Written(fs, files, start, base, done)
    modifies fs
    ensures Hosting(start, base) ==> (r.Ok? <==> AllWork(fs.faults, old(fs.calls), 1))
    ensures r.Ok? ==> Written(fs, r.value, start, base, done + [Entry(name, data)])
    ensures r.Ok? ==> fs.calls == old(fs.calls) + 1
    ensures r.Err? ==> fs.tree == RemoveAll(start, EntryPaths(base, done + [Entry(name, data)]))
    ensures r.Err? ==> !r.error.Permissions?
  {
    ghost var e := Entry(name, data);
    assert EntryPaths(base, done + [e]) == EntryPaths(base, done) + [base + [name]];
    WriteEntriesAt(start, base, done, base + [name]);
    if Hosting(start, base) { HostsWrites(start, base, done, name); }
    var file := NewWithData(fs, base + [name], data);
    if file.Err? {
      DropOwners(fs, files);
      FailingWriteCleans(start, base, done, e);
      return Err(file.error);
    }
    assert (done + [e])[..|done|] == done;
    r := Ok(files + [file.value]);
    assert PathsOf(r.value) == PathsOf(files) + [base + [name]];
  }

  method PushOptionalInfoFile(fs: FileSystem, base: Path, files: seq<Owner>, name: FileName, data: Option<Bytes>,
                              ghost start: Tree, ghost done: seq<Entry>)
    returns (r: Result<seq<Owner>, IoError>)
    requires Written(fs, files, start, base, done)
    modifies fs
    ensures Hosting(start, base) ==> (r.Ok? <==> AllWork(fs.faults, old(fs.calls), |OptionalEntry(name, data)|))
    ensures r.Ok? ==> Written(fs, r.value, start, base, done + OptionalEntry(name, data))
    ensures r.Ok? ==> fs.calls == old(fs.calls) + |OptionalEntry(name, data)|
    ensures r.Err? ==> data.Some?
    ensures r.Err? ==> fs.tree == RemoveAll(start, EntryPaths(base, done + OptionalEntry(name, data)))
    ensures r.Err? ==> !r.error.Permissions?
  {
    match data
    case Some(value) =>
      r := PushInfoFile(fs, base, files, name, value, start, done);
    case None =>
      assert done + OptionalEntry(name, data) == done;
      r := Ok(files);
  }

  function DescribingEntries(info: RegistrationInfo): seq<Entry> {
    [Entry(SdpXml, info.sdpRecord)]
    + OptionalEntry(ServiceName, info.configuration.serviceName)
    + OptionalEntry(ServiceDescription, info.configuration.serviceDescription)
  }

  /** The SDP record and the two texts about the service. */
  method CreateDescribingFiles(fs: FileSystem, base: Path, info: RegistrationInfo)
    returns (r: Result<seq<Owner>, IoError>, ghost attempted: seq<Entry>)
    modifies fs
    ensures old(Hosting(fs.tree, base)) ==> (r.Ok? <==> AllWork(fs.faults, old(fs.calls), |DescribingEntries(info)|))
    ensures r.Ok? ==> fs.calls == old(fs.calls) + |DescribingEntries(info)|
    ensures attempted <= DescribingEntries(info)
    ensures r.Ok? ==> Written(fs, r.value, old(fs.tree), base, DescribingEntries(info))
    ensures r.Err? ==> attempted != [] && !r.error.Permissions?
    ensures r.Err? ==> fs.tree == RemoveAll(old(fs.tree), EntryPaths(base, attempted))
  {
    var config := info.configuration;
    ghost var start := fs.tree;
    ghost var e0 := [Entry(SdpXml, info.sdpRecord)];
    ghost var e1 := e0 + OptionalEntry(ServiceName, config.serviceName);
    assert PathsOf([]) == EntryPaths(base, []);
    assert [] + e0 == e0;

    attempted := e0;
    r := PushInfoFile(fs, base, [], SdpXml, info.sdpRecord, start, []);
    if r.Err? { return; }
    attempted := e1;
    r := PushOptionalInfoFile(fs, base, r.value, ServiceName, config.serviceName, start, e0);
    if r.Err? { return; }
    attempted := e1 + OptionalEntry(ServiceDescription, config.serviceDescription);
    r := PushOptionalInfoFile(fs, base, r.value, ServiceDescription, config.serviceDescription, start, e1);
  }

  /** The files every registration has, in the order the source writes them. */
  method CreateFixedFiles(fs: FileSystem, base: Path, info: RegistrationInfo)
    returns (r: Result<seq<Owner>, IoError>, ghost attempted: seq<Entry>)
    modifies fs
    ensures old(Hosting(fs.tree, base)) ==> (r.Ok? <==> AllWork(fs.faults, old(fs.calls), |FixedEntries(info)|))
    ensures r.Ok? ==> fs.calls == old(fs.calls) + |FixedEntries(info)|
    ensures attempted <= FixedEntries(info)
    ensures r.Ok? ==> Written(fs, r.value, old(fs.tree), base, FixedEntries(info))
    ensures r.Err? ==> attempted != [] && !r.error.Permissions?
    ensures r.Err? ==> fs.tree == RemoveAll(old(fs.tree), EntryPaths(base, attempted))
  {
    var config := info.configuration;
    ghost var start := fs.tree;
    ghost var e2 := DescribingEntries(info);
    ghost var e3 := e2 + OptionalEntry(ProviderName, config.providerName);

    r, attempted := CreateDescribingFiles(fs, base, info);
    if r.Err? { return; }
    attempted := e3;
    r := PushOptionalInfoFile(fs, base, r.value, ProviderName, config.providerName, start, e2);
    if r.Err? { return; }
    attempted := e3 + [Entry(DeviceSubclass, config.deviceSubclass)];
    r := PushInfoFile(fs, base, r.value, DeviceSubclass, config.deviceSubclass, start, e3);
  }

  /** create_info_files. On success the planned files exist and the vector owns
      each of them; on failure every path written or attempted so far is gone. */
  method CreateInfoFiles(fs: FileSystem, base: Path, info: RegistrationInfo)
    returns (r: Result<seq<Owner>, IoError>, ghost attempted: seq<Entry>)
    modifies fs
    ensures old(Hosting(fs.tree, base)) ==> (r.Ok? <==> AllWork(fs.faults, old(fs.calls), |InfoPlan(info)|))
    ensures r.Ok? ==> fs.calls == old(fs.calls) + |InfoPlan(info)|
    ensures attempted <= InfoPlan(info)
    ensures r.Ok? ==> fs.tree == WriteEntries(old(fs.tree), base, InfoPlan(info))
    ensures r.Ok? ==> PathsOf(r.value) == EntryPaths(base, InfoPlan(info))
    ensures r.Err? ==> attempted != [] && !r.error.Permissions?
    ensures r.Err? ==> fs.tree == RemoveAll(old(fs.tree), EntryPaths(base, attempted))
  {
    r, attempted := CreateFixedFiles(fs, base, info);
    if r.Err? {
      return;
    }
    var k := 0;
    assert PlanUpTo(info, 0) == FixedEntries(info);
    while k < |info.configuration.classDescriptors|
      invariant 0 <= k <= |info.configuration.classDescriptors|
      invariant r.Ok? && Written(fs, r.value, old(fs.tree), base, PlanUpTo(info, k))
      invariant attempted <= InfoPlan(info)
      invariant fs.calls == old(fs.calls) + |PlanUpTo(info, k)|
      invariant old(Hosting(fs.tree, base)) ==> AllWork(fs.faults, old(fs.calls), |PlanUpTo(info, k)|)
    {
      r := PushDescriptor(fs, base, r.value, info, k, old(fs.tree));
      if r.Err? {
        attempted := PlanUpTo(info, k + 1);
        PlanPrefix(info, k + 1);
        return;
      }
      k := k + 1;
    }
    PlanPrefix(info, k);
    assert PlanUpTo(info, k) == InfoPlan(info) by {
      assert info.configuration.classDescriptors[..k] == info.configuration.classDescriptors;
    }
  }

  /** The plan after `k` class descriptors. */
  function PlanUpTo(info: RegistrationInfo, k: nat): seq<Entry>
    requires k <= |info.configuration.classDescriptors|
  {
    FixedEntries(info) + DescriptorEntries(info.configuration.classDescriptors[..k])
  }

  lemma PlanPrefix(info: RegistrationInfo, k: nat)
    requires k <= |info.configuration.classDescriptors|
    ensures PlanUpTo(info, k) <= InfoPlan(info)
    ensures |PlanUpTo(info, k)| > 0
  {
    DescriptorPrefix(info.configuration.classDescriptors, k);
  }

  lemma PlanNext(info: RegistrationInfo, k: nat)
    requires k < |info.configuration.classDescriptors|
    ensures var d := info.configuration.classDescriptors[k];
            PlanUpTo(info, k + 1) ==
            if d.kind == REPORT then PlanUpTo(info, k) + [Entry(ReportDescriptor, d.data)]
            else if d.kind == PHYSICAL then PlanUpTo(info, k) + [Entry(PhysicalDescriptor, d.data)]
            else PlanUpTo(info, k)
  {
    var ds := info.configuration.classDescriptors;
    assert ds[..k + 1][..k] == ds[..k];
    assert ds[..k + 1][|ds[..k + 1]| - 1] == ds[k];
  }

  method PushDescriptor(fs: FileSystem, base: Path, files: seq<Owner>, info: RegistrationInfo, k: nat,
                        ghost start: Tree)
    returns (r: Result<seq<Owner>, IoError>)
    requires k < |info.configuration.classDescriptors|
    requires Written(fs, files, start, base, PlanUpTo(info, k))
    modifies fs
    ensures |PlanUpTo(info, k + 1)| >= |PlanUpTo(info, k)|
    ensures Hosting(start, base) ==>
              (r.Ok? <==> AllWork(fs.faults, old(fs.calls), |PlanUpTo(info, k + 1)| - |PlanUpTo(info, k)|))
    ensures r.Ok? ==> fs.calls == old(fs.calls) + |PlanUpTo(info, k + 1)| - |PlanUpTo(info, k)|
    ensures r.Ok? ==> Written(fs, r.value, start, base, PlanUpTo(info, k + 1))
    ensures r.Err? ==> fs.tree == RemoveAll(start, EntryPaths(base, PlanUpTo(info, k + 1)))
    ensures r.Err? ==> !r.error.Permissions?
  {
    PlanNext(info, k);
    var d := info.configuration.classDescriptors[k];
    if d.kind == REPORT {
      r := PushInfoFile(fs, base, files, ReportDescriptor, d.data, start, PlanUpTo(info, k));
    } else if d.kind == PHYSICAL {
      r := PushInfoFile(fs, base, files, PhysicalDescriptor, d.data, start, PlanUpTo(info, k));
    } else {
      r := Ok(files);
    }
  }

  lemma {:induction false} DescriptorPrefix(ds: seq<ClassDescriptor>, k: nat)
    requires k <= |ds|
    ensures DescriptorEntries(ds[..k]) <= DescriptorEntries(ds)
    decreases |ds|
  {
    if k < |ds| {
      var init := ds[..|ds| - 1];
      assert init[..k] == ds[..k];
      DescriptorPrefix(init, k);
    } else {
      assert ds[..k] == ds;
    }
  }

  /** `k` is where the descriptor list mentions `kind` for the last time. */
  predicate LastOfKind(ds: seq<ClassDescriptor>, kind: Byte, k: nat) {
    && k < |ds| && ds[k].kind == kind
    && forall j | k < j < |ds| :: ds[j].kind != kind
  }

  function DescriptorFile(kind: Byte): FileName
    requires kind == REPORT || kind == PHYSICAL
  {
    if kind == REPORT then ReportDescriptor else PhysicalDescriptor
  }

  lemma LastDataStep(init: seq<ClassDescriptor>, last: ClassDescriptor, kind: Byte)
    ensures LastData(init + [last], kind) == if last.kind == kind then Some(last.data) else LastData(init, kind)
  {
    var ds := init + [last];
    if last.kind == kind {
      assert LastOfKind(ds, kind, |init|);
    } else {
      assert forall k: nat | k < |init| :: ds[k] == init[k];
      assert forall k: nat :: LastOfKind(init, kind, k) <==> LastOfKind(ds, kind, k);
    }
  }

  lemma LatestStep(init: seq<ClassDescriptor>, last: ClassDescriptor, kind: Byte)
    requires kind == REPORT || kind == PHYSICAL
    ensures Latest(DescriptorEntries(init + [last]), DescriptorFile(kind))
         == if last.kind == kind then Some(last.data) else Latest(DescriptorEntries(init), DescriptorFile(kind))
  {
    assert (init + [last])[..|init|] == init;
    if last.kind == REPORT || last.kind == PHYSICAL {
      var all := DescriptorEntries(init + [last]);
      assert all == DescriptorEntries(init) + [Entry(DescriptorFile(last.kind), last.data)];
      assert all[..|all| - 1] == DescriptorEntries(init);
    } else {
      assert DescriptorEntries(init + [last]) == DescriptorEntries(init);
    }
  }

  lemma {:induction false} LatestDescriptor(ds: seq<ClassDescriptor>, kind: Byte)
    requires kind == REPORT || kind == PHYSICAL
    ensures Latest(DescriptorEntries(ds), DescriptorFile(kind)) == LastData(ds, kind)
  {
    if ds != [] {
      var init, last := ds[..|ds| - 1], ds[|ds| - 1];
      LatestDescriptor(init, kind);
      assert ds == init + [last];
      LastDataStep(init, last, kind);
      LatestStep(init, last, kind);
    }
  }

  lemma {:induction false} DescriptorNames(ds: seq<ClassDescriptor>, name: FileName)
    ensures Latest(DescriptorEntries(ds), name).Some? ==> name == ReportDescriptor || name == PhysicalDescriptor
  {
    if ds != [] {
      var init := ds[..|ds| - 1];
      DescriptorNames(init, name);
      var tail := DescriptorEntries(ds)[|DescriptorEntries(init)|..];
      LatestOfConcat(DescriptorEntries(init), tail, name);
      assert DescriptorEntries(init) + tail == DescriptorEntries(ds);
    }
  }

  lemma FixedNames(info: RegistrationInfo, name: FileName)
    ensures Latest(FixedEntries(info), name) ==
            if name == DeviceSubclass then Some(info.configuration.deviceSubclass)
            else if name == ProviderName then info.configuration.providerName
            else if name == ServiceDescription then info.configuration.serviceDescription
            else if name == ServiceName then info.configuration.serviceName
            else if name == SdpXml then Some(info.sdpRecord)
            else None
  {
    var c := info.configuration;
    var e0 := [Entry(SdpXml, info.sdpRecord)];
    var e1 := e0 + OptionalEntry(ServiceName, c.serviceName);
    var e2 := e1 + OptionalEntry(ServiceDescription, c.serviceDescription);
    var e3 := e2 + OptionalEntry(ProviderName, c.providerName);
    LatestOfConcat(e3, [Entry(DeviceSubclass, c.deviceSubclass)], name);
    LatestOfConcat(e2, OptionalEntry(ProviderName, c.providerName), name);
    LatestOfConcat(e1, OptionalEntry(ServiceDescription, c.serviceDescription), name);
    LatestOfConcat(e0, OptionalEntry(ServiceName, c.serviceName), name);
  }

  /** What a fresh directory holds afterwards, for every configuration: the fixed
      files, and of several REPORT or PHYSICAL descriptors the last one. */
  lemma InfoFilesLeft(t: Tree, base: Path, info: RegistrationInfo, name: FileName)
    ensures At(WriteEntries(t, base, InfoPlan(info)), base + [name]) ==
            if InfoContents(info, name).Some? then Some(File(InfoContents(info, name).value)) else At(t, base + [name])
  {
    LatestOfPlan(info, name);
    WriteEntriesAt(t, base, InfoPlan(info), base + [name]);
    assert (base + [name])[..|base|] == base;
  }

  lemma LatestOfPlan(info: RegistrationInfo, name: FileName)
    ensures Latest(InfoPlan(info), name) == InfoContents(info, name)
  {
    LatestOfConcat(FixedEntries(info), DescriptorEntries(info.configuration.classDescriptors), name);
    FixedNames(info, name);
    DescriptorNames(info.configuration.classDescriptors, name);
    LatestDescriptor(info.configuration.classDescriptors, REPORT);
    LatestDescriptor(info.configuration.classDescriptors, PHYSICAL);
  }

  /** The documented contents of each file, read off the configuration. */
  ghost function InfoContents(info: RegistrationInfo, name: FileName): Option<Bytes> {
    match name
    case SdpXml => Some(info.sdpRecord)
    case ServiceName => info.configuration.serviceName
    case ServiceDescription => info.configuration.serviceDescription
    case ProviderName => info.configuration.providerName
    case DeviceSubclass => Some(info.configuration.deviceSubclass)
    case ReportDescriptor => LastData(info.configuration.classDescriptors, REPORT)
    case PhysicalDescriptor => LastData(info.configuration.classDescriptors, PHYSICAL)
    case _ => None
  }

  ghost function LastData(ds: seq<ClassDescriptor>, kind: Byte): (r: Option<Bytes>) {
    if k: nat :| LastOfKind(ds, kind, k) then Some(ds[k].data) else None
  }
}
