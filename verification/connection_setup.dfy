/** The synchronous first half of handle_connection in src/connection.rs: building
    a connection directory, and unwinding it on every early error. */
module ConnectionSetup {
  import opened Common
  import opened FileTree
  import opened InfoFile

  const ZERO: Bytes := ['0' as int]
  const ONE: Bytes := ['1' as int]

  datatype SetupError =
    | CreatingConnectionDirectory(cause: IoError)
    | CreatingInfoFile(cause: IoError)
    | OpeningLocalControl(path: Path, cause: IoError)
    | OpeningLocalInterrupt(path: Path, cause: IoError)

  /** What a connection owns. `directory` and `infoFiles` stay with the wrapper task,
      `control` moves into the control handler, `interrupt` and `ready` into the other. */
  datatype Opened = Opened(directory: Owner, infoFiles: seq<Owner>, ready: Owner, control: Owner, interrupt: Owner)

  function InfoTree(t: Tree, dir: Path, info: RegistrationInfo): Tree {
    WriteEntries(t[dir := Directory], dir, InfoPlan(info))
  }

  function OpenedTree(t: Tree, dir: Path, info: RegistrationInfo): Tree {
    InfoTree(t, dir, info)[dir + [Ready] := File(ZERO)][dir + [Control] := Socket][dir + [Interrupt] := Socket]
  }

  /** The tree after an early error: only a path whose permissions could not be set stays. */
  function UnwoundTree(t: Tree, dir: Path, e: SetupError): Tree {
    if !e.cause.Permissions? then t
    else match e
      case CreatingConnectionDirectory(_) => t[dir := Directory]
      case CreatingInfoFile(_) => t
      case OpeningLocalControl(path, _) => t[dir := Directory][path := Socket]
      case OpeningLocalInterrupt(path, _) => t[dir := Directory][path := Socket]
  }

  /** One entry of the tree that a fresh connection directory adds to `t`. */
  lemma OpenedAt(t: Tree, dir: Path, info: RegistrationInfo, p: Path)
    ensures !Under(p, dir) ==> At(OpenedTree(t, dir, info), p) == At(t, p)
    ensures At(OpenedTree(t, dir, info), dir) == Some(Directory)
    ensures Under(p, dir) && |p| == |dir| + 1 ==>
              At(OpenedTree(t, dir, info), p) ==
              match p[|dir|]
              case Ready => Some(File(ZERO))
              case Control => Some(Socket)
              case Interrupt => Some(Socket)
              case name => if Latest(InfoPlan(info), name).Some? then Some(File(Latest(InfoPlan(info), name).value))
                           else At(t, p)
    ensures Under(p, dir) && |p| > |dir| + 1 ==> At(OpenedTree(t, dir, info), p) == At(t, p)
  {
    WriteEntriesAt(t[dir := Directory], dir, InfoPlan(info), p);
    WriteEntriesAt(t[dir := Directory], dir, InfoPlan(info), dir);
    if Under(p, dir) && |p| == |dir| + 1 {
      assert p == dir + [p[|dir|]];
    }
  }

  /** The owned entries are removed in reverse order of creation; `files` and `dir`
      are the last two. What is left differs from `t` only by the leaked path. */
  lemma UnwindInfo(t: Tree, dir: Path, info: RegistrationInfo)
    requires WellFormed(t) && dir !in t
    ensures RemoveAll(InfoTree(t, dir, info), EntryPaths(dir, InfoPlan(info))) == t[dir := Directory]
  {
    forall p | p in EntryPaths(dir, InfoPlan(info))
      ensures p !in t[dir := Directory]
    {
      NothingUnderMissing(t, dir, p);
    }
    DroppingRestores(t[dir := Directory], dir, InfoPlan(info));
  }

  lemma UnwindDirectory(t: Tree, dir: Path)
    requires WellFormed(t) && dir !in t
    ensures RemoveDir(t[dir := Directory], dir) == t
  {
    forall p | p in t[dir := Directory] && Under(p, dir)
      ensures p == dir
    {
      NothingUnderMissing(t, dir, p);
    }
    assert t[dir := Directory] - {dir} == t;
  }

  /** A leaked socket keeps the directory from being removed. */
  lemma UnwindKeepsLeak(t: Tree, dir: Path, info: RegistrationInfo, name: FileName)
    requires WellFormed(t) && dir !in t && Latest(InfoPlan(info), name).None?
    ensures var leaked := InfoTree(t, dir, info)[dir + [name] := Socket];
            RemoveDir(RemoveAll(leaked, EntryPaths(dir, InfoPlan(info))), dir) == t[dir := Directory][dir + [name] := Socket]
  {
    var plan := EntryPaths(dir, InfoPlan(info));
    var leaked := InfoTree(t, dir, info)[dir + [name] := Socket];
    var kept := t[dir := Directory][dir + [name] := Socket];
    forall p
      ensures At(RemoveAll(leaked, plan), p) == At(kept, p)
    {
      UnwindInfo(t, dir, info);
      RemoveAllAt(leaked, plan, p);
      RemoveAllAt(InfoTree(t, dir, info), plan, p);
      WriteEntriesAt(t[dir := Directory], dir, InfoPlan(info), p);
    }
    SameTree(RemoveAll(leaked, plan), kept);
    assert Under(dir + [name], dir);
    assert dir + [name] in kept && dir + [name] != dir;
  }

  /** A partly built info directory is emptied by create_info_files itself. */
  lemma UnwindPartialInfo(t: Tree, dir: Path, es: seq<Entry>)
    requires WellFormed(t) && dir !in t
    ensures RemoveAll(t[dir := Directory], EntryPaths(dir, es)) == t[dir := Directory]
  {
    var made := t[dir := Directory];
    forall p
      ensures At(RemoveAll(made, EntryPaths(dir, es)), p) == At(made, p)
    {
      RemoveAllAt(made, EntryPaths(dir, es), p);
      if p in EntryPaths(dir, es) {
        assert Under(p, dir);
        NothingUnderMissing(t, dir, p);
      }
    }
    SameTree(RemoveAll(made, EntryPaths(dir, es)), made);
  }

  lemma EndpointNames(info: RegistrationInfo, name: FileName)
    requires name == Ready || name == Control || name == Interrupt
    ensures Latest(InfoPlan(info), name).None?
  {
    LatestOfPlan(info, name);
  }

  /** Removing a fresh entry undoes its insertion. */
  lemma RemoveFresh(t: Tree, p: Path, node: Node)
    requires p !in t && !node.Directory?
    ensures RemoveFile(t[p := node], p) == t
  {
    assert t[p := node] - {p} == t;
  }

  lemma FreshHosts(t: Tree, dir: Path)
    requires WellFormed(t) && dir !in t
    ensures Hosting(t[dir := Directory], dir)
  {
    forall n: FileName
      ensures dir + [n] !in t[dir := Directory]
    {
      NothingUnderMissing(t, dir, dir + [n]);
    }
  }

  /** Dropping the static info files and then the directory, the last two owners. */
  function Unwind(t: Tree, dir: Path, info: RegistrationInfo): Tree {
    RemoveDir(RemoveAll(t, EntryPaths(dir, InfoPlan(info))), dir)
  }

  lemma UnwindReady(t: Tree, dir: Path, info: RegistrationInfo)
    requires WellFormed(t) && dir !in t
    ensures Unwind(RemoveFile(InfoTree(t, dir, info), dir + [Ready]), dir, info) == t
    ensures Unwind(RemoveFile(InfoTree(t, dir, info)[dir + [Ready] := File(ZERO)], dir + [Ready]), dir, info) == t
  {
    EndpointsFresh(t, dir, info);
    UnwindInfo(t, dir, info);
    UnwindDirectory(t, dir);
    RemoveFresh(InfoTree(t, dir, info), dir + [Ready], File(ZERO));
  }

  lemma UnwindLeakedControl(t: Tree, dir: Path, info: RegistrationInfo)
    requires WellFormed(t) && dir !in t
    ensures var bound := InfoTree(t, dir, info)[dir + [Ready] := File(ZERO)][dir + [Control] := Socket];
            Unwind(RemoveFile(bound, dir + [Ready]), dir, info) == t[dir := Directory][dir + [Control] := Socket]
  {
    EndpointsFresh(t, dir, info);
    UnwindKeepsLeak(t, dir, info, Control);
    var described := InfoTree(t, dir, info);
    RemoveFresh(described[dir + [Control] := Socket], dir + [Ready], File(ZERO));
    assert described[dir + [Ready] := File(ZERO)][dir + [Control] := Socket]
        == described[dir + [Control] := Socket][dir + [Ready] := File(ZERO)];
  }

  lemma UnwindControl(t: Tree, dir: Path, info: RegistrationInfo)
    requires WellFormed(t) && dir !in t
    ensures var listening := InfoTree(t, dir, info)[dir + [Ready] := File(ZERO)][dir + [Control] := Socket];
            Unwind(RemoveFile(RemoveFile(listening, dir + [Control]), dir + [Ready]), dir, info) == t
  {
    EndpointsFresh(t, dir, info);
    RemoveFresh(InfoTree(t, dir, info)[dir + [Ready] := File(ZERO)], dir + [Control], Socket);
    UnwindReady(t, dir, info);
  }

  lemma UnwindLeakedInterrupt(t: Tree, dir: Path, info: RegistrationInfo)
    requires WellFormed(t) && dir !in t
    ensures Unwind(RemoveFile(RemoveFile(OpenedTree(t, dir, info), dir + [Control]), dir + [Ready]), dir, info)
         == t[dir := Directory][dir + [Interrupt] := Socket]
  {
    EndpointsFresh(t, dir, info);
    UnwindKeepsLeak(t, dir, info, Interrupt);
    RemoveEndpoints(InfoTree(t, dir, info), dir + [Ready], dir + [Control], dir + [Interrupt]);
  }

  /** Taking away the two endpoints bound before the third. */
  lemma RemoveEndpoints(t: Tree, ready: Path, control: Path, interrupt: Path)
    requires ready !in t && control !in t && ready != control && ready != interrupt && control != interrupt
    ensures RemoveFile(RemoveFile(t[ready := File(ZERO)][control := Socket][interrupt := Socket], control), ready)
         == t[interrupt := Socket]
  {
    var all := t[ready := File(ZERO)][control := Socket][interrupt := Socket];
    assert all - {control} - {ready} == t[interrupt := Socket];
  }

  lemma EndpointsFit(t: Tree, dir: Path, info: RegistrationInfo)
    requires WellFormed(t) && dir !in t
    ensures CanWrite(InfoTree(t, dir, info), dir + [Ready])
    ensures CanCreate(InfoTree(t, dir, info)[dir + [Ready] := File(ZERO)], dir + [Control])
    ensures CanCreate(InfoTree(t, dir, info)[dir + [Ready] := File(ZERO)][dir + [Control] := Socket], dir + [Interrupt])
  {
    EndpointsFresh(t, dir, info);
    WriteEntriesAt(t[dir := Directory], dir, InfoPlan(info), dir);
    assert (dir + [Ready])[..|dir|] == dir && (dir + [Control])[..|dir|] == dir && (dir + [Interrupt])[..|dir|] == dir;
  }

  method Abandon(fs: FileSystem, dir: Path, info: RegistrationInfo, files: seq<Owner>)
    requires PathsOf(files) == EntryPaths(dir, InfoPlan(info))
    modifies fs
    ensures fs.tree == Unwind(old(fs.tree), dir, info) && fs.calls == old(fs.calls)
  {
    DropOwners(fs, files);
    DropDirectory(fs, Owner(dir));
  }

  /** The last call of the setup: the interrupt socket, on top of all else. */
  method OpenInterrupt(fs: FileSystem, dir: Path, info: RegistrationInfo, files: seq<Owner>,
                       ready: Owner, control: Owner, ghost t: Tree)
    returns (r: Result<Opened, SetupError>)
    requires WellFormed(t) && dir !in t
    requires fs.tree == InfoTree(t, dir, info)[dir + [Ready] := File(ZERO)][dir + [Control] := Socket]
    requires PathsOf(files) == EntryPaths(dir, InfoPlan(info))
    requires ready == Owner(dir + [Ready]) && control == Owner(dir + [Control])
    modifies fs
    ensures r.Ok? <==> AllWork(fs.faults, old(fs.calls), 2)
    ensures r.Ok? ==> fs.tree == OpenedTree(t, dir, info)
    ensures r.Ok? ==> r.value == Opened(Owner(dir), files, ready, control, Owner(dir + [Interrupt]))
    ensures r.Err? ==> fs.tree == UnwoundTree(t, dir, r.error) && r.error == OpeningLocalInterrupt(dir + [Interrupt], r.error.cause)
    ensures r.Err? && r.error.cause.Permissions? <==> FirstFault(fs.faults, old(fs.calls), 1)
  {
    EndpointsFit(t, dir, info);
    var interrupt := BindSocket(fs, dir + [Interrupt]);
    if interrupt.Err? {
      UnwindControl(t, dir, info);
      UnwindLeakedInterrupt(t, dir, info);
      DropOwner(fs, control);
      DropOwner(fs, ready);
      Abandon(fs, dir, info, files);
      return Err(OpeningLocalInterrupt(dir + [Interrupt], interrupt.error));
    }
    r := Ok(Opened(Owner(dir), files, ready, control, interrupt.value));
  }

  /** The control socket, on top of the ready file. */
  method BindControl(fs: FileSystem, dir: Path, info: RegistrationInfo, files: seq<Owner>, ready: Owner, ghost t: Tree)
    returns (r: Result<Owner, SetupError>)
    requires WellFormed(t) && dir !in t
    requires fs.tree == InfoTree(t, dir, info)[dir + [Ready] := File(ZERO)]
    requires PathsOf(files) == EntryPaths(dir, InfoPlan(info)) && ready == Owner(dir + [Ready])
    modifies fs
    ensures r.Ok? <==> AllWork(fs.faults, old(fs.calls), 2)
    ensures r.Ok? ==> r.value == Owner(dir + [Control]) && fs.tree == old(fs.tree)[dir + [Control] := Socket]
    ensures r.Ok? ==> fs.calls == old(fs.calls) + 2
    ensures r.Err? ==> fs.tree == UnwoundTree(t, dir, r.error) && r.error == OpeningLocalControl(dir + [Control], r.error.cause)
    ensures r.Err? && r.error.cause.Permissions? <==> FirstFault(fs.faults, old(fs.calls), 1)
  {
    EndpointsFit(t, dir, info);
    var control := BindSocket(fs, dir + [Control]);
    if control.Err? {
      UnwindReady(t, dir, info);
      UnwindLeakedControl(t, dir, info);
      DropOwner(fs, ready);
      Abandon(fs, dir, info, files);
      return Err(OpeningLocalControl(dir + [Control], control.error));
    }
    r := Ok(control.value);
  }

  /** The ready file and the two local sockets, on top of the info files. */
  method OpenEndpoints(fs: FileSystem, dir: Path, info: RegistrationInfo, files: seq<Owner>, ghost t: Tree)
    returns (r: Result<Opened, SetupError>)
    requires WellFormed(t) && dir !in t
    requires fs.tree == InfoTree(t, dir, info) && PathsOf(files) == EntryPaths(dir, InfoPlan(info))
    modifies fs
    ensures r.Ok? <==> AllWork(fs.faults, old(fs.calls), 5)
    ensures r.Ok? ==> fs.tree == OpenedTree(t, dir, info)
    ensures r.Ok? ==> r.value == Opened(Owner(dir), files, Owner(dir + [Ready]), Owner(dir + [Control]), Owner(dir + [Interrupt]))
    ensures r.Err? ==> fs.tree == UnwoundTree(t, dir, r.error) && !r.error.CreatingConnectionDirectory?
    ensures EndpointLeak(r, dir, fs.faults, old(fs.calls))
  {
    ghost var from := fs.calls;
    UnwindReady(t, dir, info);
    EndpointsFit(t, dir, info);
    EndpointCalls(fs.faults, from);
    var ready := NewWithData(fs, dir + [Ready], ZERO);
    if ready.Err? {
      Abandon(fs, dir, info, files);
      return Err(CreatingInfoFile(ready.error));
    }
    var control := BindControl(fs, dir, info, files, ready.value, t);
    if control.Err? {
      return Err(control.error);
    }
    r := OpenInterrupt(fs, dir, info, files, ready.value, control.value, t);
  }

  /** How the five calls divide: a write, a bind, a bind. */
  lemma EndpointCalls(faults: nat -> Fault, from: nat)
    ensures AllWork(faults, from, 5) <==> faults(from).Works? && AllWork(faults, from + 1, 2) && AllWork(faults, from + 3, 2)
    ensures FirstFault(faults, from, 2) <==> faults(from).Works? && FirstFault(faults, from + 1, 1)
    ensures FirstFault(faults, from, 4) <==>
            faults(from).Works? && AllWork(faults, from + 1, 2) && FirstFault(faults, from + 3, 1)
  {
    CountOn(faults, from, 1, 1);
    CountOn(faults, from, 1, 2);
    CountOn(faults, from, 3, 1);
    CountOn(faults, from, 3, 2);
  }

  /** A failed call leaks a path exactly if it is the third or the fifth of them. */
  ghost predicate EndpointLeak(r: Result<Opened, SetupError>, dir: Path, faults: nat -> Fault, from: nat) {
    && (r.Err? && r.error == OpeningLocalControl(dir + [Control], Permissions) <==> FirstFault(faults, from, 2))
    && (r.Err? && r.error == OpeningLocalInterrupt(dir + [Interrupt], Permissions) <==> FirstFault(faults, from, 4))
    && (r.Err? && r.error.cause.Permissions? ==>
          r.error == OpeningLocalControl(dir + [Control], Permissions)
          || r.error == OpeningLocalInterrupt(dir + [Interrupt], Permissions))
  }

  /** What the system calls of handle_connection, numbered from `from`, leave behind. They
      create the directory and set its permissions, write the info files and the ready
      file, and bind each of the two sockets and set its permissions. */
  ghost function OutcomeTree(t: Tree, dir: Path, info: RegistrationInfo, faults: nat -> Fault, from: nat): Tree {
    var files := |InfoPlan(info)|;
    if !CanCreate(t, dir) then t
    else if AllWork(faults, from, files + 7) then OpenedTree(t, dir, info)
    else if FirstFault(faults, from, 1) then t[dir := Directory]
    else if FirstFault(faults, from, files + 4) then t[dir := Directory][dir + [Control] := Socket]
    else if FirstFault(faults, from, files + 6) then t[dir := Directory][dir + [Interrupt] := Socket]
    else t
  }

  /** One of the three set_permissions calls is the first call to fail. */
  ghost predicate Leaks(info: RegistrationInfo, faults: nat -> Fault, from: nat) {
    || FirstFault(faults, from, 1)
    || FirstFault(faults, from, |InfoPlan(info)| + 4)
    || FirstFault(faults, from, |InfoPlan(info)| + 6)
  }

  /** Each of them can be, and then the tree is not the one before. */
  lemma LeaksHappen(t: Tree, dir: Path, info: RegistrationInfo, from: nat, offset: nat)
    requires CanCreate(t, dir)
    requires offset == 1 || offset == |InfoPlan(info)| + 4 || offset == |InfoPlan(info)| + 6
    ensures var faults: nat -> Fault := n => if n == from + offset then Fails else Works;
            Leaks(info, faults, from) && dir in OutcomeTree(t, dir, info, faults, from)
  {
    var faults: nat -> Fault := n => if n == from + offset then Fails else Works;
    assert FirstFault(faults, from, offset);
    assert !faults(from + offset).Works? && from <= from + offset < from + (|InfoPlan(info)| + 7);
  }

  /** The calls for the three endpoints, after those before them worked. */
  lemma EndpointOutcome(info: RegistrationInfo, faults: nat -> Fault, from: nat)
    requires AllWork(faults, from, |InfoPlan(info)| + 2)
    ensures var after := from + |InfoPlan(info)| + 2;
            && (AllWork(faults, after, 5) <==> AllWork(faults, from, |InfoPlan(info)| + 7))
            && (FirstFault(faults, after, 2) <==> FirstFault(faults, from, |InfoPlan(info)| + 4))
            && (FirstFault(faults, after, 4) <==> FirstFault(faults, from, |InfoPlan(info)| + 6))
            && !(FirstFault(faults, after, 2) && FirstFault(faults, after, 4))
    ensures !FirstFault(faults, from, 1)
  {
    var done := |InfoPlan(info)| + 2;
    CountOn(faults, from, done, 5);
    CountOn(faults, from, done, 2);
    CountOn(faults, from, done, 4);
  }

  /** A write of an info file that fails leaves nothing behind, whatever comes later. */
  lemma InfoFileOutcome(info: RegistrationInfo, faults: nat -> Fault, from: nat)
    requires AllWork(faults, from, 2) && !AllWork(faults, from + 2, |InfoPlan(info)|)
    ensures !AllWork(faults, from, |InfoPlan(info)| + 7) && !Leaks(info, faults, from)
  {
    var done := |InfoPlan(info)| + 2;
    CountOn(faults, from, 2, |InfoPlan(info)|);
    CountOn(faults, from, done, 5);
    CountOn(faults, from, done, 2);
    CountOn(faults, from, done, 4);
    assert !FirstFault(faults, from, 1);
  }

  /** The two calls that make the directory. */
  lemma DirectoryOutcome(info: RegistrationInfo, faults: nat -> Fault, from: nat)
    requires !AllWork(faults, from, 2)
    ensures !AllWork(faults, from, |InfoPlan(info)| + 7)
    ensures Leaks(info, faults, from) <==> FirstFault(faults, from, 1)
  {
    var files := |InfoPlan(info)|;
    CountOn(faults, from, 2, files + 5);
    CountOn(faults, from, 2, files + 2);
    CountOn(faults, from, 2, files + 4);
  }

  /** Which call failed, read off the result. */
  ghost predicate Explains(r: Result<Opened, SetupError>, t: Tree, dir: Path, info: RegistrationInfo,
                           faults: nat -> Fault, from: nat)
  {
    && (r.Ok? <==> CanCreate(t, dir) && AllWork(faults, from, |InfoPlan(info)| + 7))
    && (r.Err? ==> UnwoundTree(t, dir, r.error) == OutcomeTree(t, dir, info, faults, from))
    && (r.Err? ==> (r.error.cause.Permissions? <==> CanCreate(t, dir) && Leaks(info, faults, from)))
  }

  lemma FillingExplained(t: Tree, dir: Path, info: RegistrationInfo, faults: nat -> Fault, from: nat,
                         r: Result<Opened, SetupError>)
    requires CanCreate(t, dir) && AllWork(faults, from, |InfoPlan(info)| + 2)
    requires var after := from + |InfoPlan(info)| + 2;
             (r.Ok? <==> AllWork(faults, after, 5)) && EndpointLeak(r, dir, faults, after)
    ensures Explains(r, t, dir, info, faults, from)
  {
    EndpointOutcome(info, faults, from);
  }

  /** A leaked path is one that was not there before. */
  lemma LeakShows(t: Tree, dir: Path, info: RegistrationInfo, faults: nat -> Fault, from: nat)
    requires !(CanCreate(t, dir) && AllWork(faults, from, |InfoPlan(info)| + 7))
    ensures OutcomeTree(t, dir, info, faults, from) == t <==> !(CanCreate(t, dir) && Leaks(info, faults, from))
  {
    if CanCreate(t, dir) && Leaks(info, faults, from) {
      assert dir in OutcomeTree(t, dir, info, faults, from);
    }
  }

  /** handle_connection up to the first spawn. Success adds exactly the connection's
      tree; an error gives the old tree back unless the call that failed was one of the
      three that set permissions. */
  method OpenConnection(fs: FileSystem, dir: Path, info: RegistrationInfo) returns (r: Result<Opened, SetupError>)
    requires WellFormed(fs.tree)
    modifies fs
    ensures fs.tree == OutcomeTree(old(fs.tree), dir, info, fs.faults, old(fs.calls))
    ensures r.Ok? <==> old(CanCreate(fs.tree, dir)) && AllWork(fs.faults, old(fs.calls), |InfoPlan(info)| + 7)
    ensures r.Ok? ==> fs.tree == OpenedTree(old(fs.tree), dir, info)
    ensures r.Ok? ==> r.value.directory == Owner(dir) && PathsOf(r.value.infoFiles) == EntryPaths(dir, InfoPlan(info))
    ensures r.Ok? ==> r.value.ready == Owner(dir + [Ready]) && r.value.control == Owner(dir + [Control])
    ensures r.Ok? ==> r.value.interrupt == Owner(dir + [Interrupt])
    ensures r.Err? ==> fs.tree == UnwoundTree(old(fs.tree), dir, r.error)
    ensures r.Err? ==> (r.error.cause.Permissions? <==> old(CanCreate(fs.tree, dir)) && Leaks(info, fs.faults, old(fs.calls)))
    ensures r.Err? ==> (fs.tree == old(fs.tree) <==> !(old(CanCreate(fs.tree, dir)) && Leaks(info, fs.faults, old(fs.calls))))
  {
    ghost var t, from := fs.tree, fs.calls;
    var directory := NewDirectory(fs, dir);
    if directory.Err? {
      r := Err(CreatingConnectionDirectory(directory.error));
      if CanCreate(t, dir) { DirectoryOutcome(info, fs.faults, from); }
      LeakShows(t, dir, info, fs.faults, from);
      return;
    }
    r := FillDirectory(fs, dir, directory.value, info, t, from);
    if r.Err? { LeakShows(t, dir, info, fs.faults, from); }
  }

  /** The info files, or nothing and no directory either. */
  method DescribeConnection(fs: FileSystem, dir: Path, directory: Owner, info: RegistrationInfo, ghost t: Tree)
    returns (r: Result<seq<Owner>, SetupError>)
    requires WellFormed(t) && dir !in t && directory == Owner(dir) && fs.tree == t[dir := Directory]
    modifies fs
    ensures r.Ok? <==> AllWork(fs.faults, old(fs.calls), |InfoPlan(info)|)
    ensures r.Ok? ==> fs.tree == InfoTree(t, dir, info) && PathsOf(r.value) == EntryPaths(dir, InfoPlan(info))
    ensures r.Ok? ==> fs.calls == old(fs.calls) + |InfoPlan(info)|
    ensures r.Err? ==> fs.tree == t && r.error.CreatingInfoFile? && !r.error.cause.Permissions?
  {
    FreshHosts(t, dir);
    var infoFiles, attempted := CreateInfoFiles(fs, dir, info);
    if infoFiles.Err? {
      UnwindPartialInfo(t, dir, attempted);
      UnwindDirectory(t, dir);
      DropDirectory(fs, directory);
      return Err(CreatingInfoFile(infoFiles.error));
    }
    r := Ok(infoFiles.value);
  }

  /** Everything inside the new directory. */
  method FillDirectory(fs: FileSystem, dir: Path, directory: Owner, info: RegistrationInfo, ghost t: Tree, ghost from: nat)
    returns (r: Result<Opened, SetupError>)
    requires WellFormed(t) && CanCreate(t, dir) && directory == Owner(dir)
    requires fs.tree == t[dir := Directory] && fs.calls == from + 2 && AllWork(fs.faults, from, 2)
    modifies fs
    ensures Explains(r, t, dir, info, fs.faults, from)
    ensures r.Ok? ==> fs.tree == OpenedTree(t, dir, info)
    ensures r.Err? ==> fs.tree == UnwoundTree(t, dir, r.error)
    ensures r.Ok? ==> r.value.directory == Owner(dir) && PathsOf(r.value.infoFiles) == EntryPaths(dir, InfoPlan(info))
    ensures r.Ok? ==> r.value.ready == Owner(dir + [Ready]) && r.value.control == Owner(dir + [Control])
    ensures r.Ok? ==> r.value.interrupt == Owner(dir + [Interrupt])
  {
    var infoFiles := DescribeConnection(fs, dir, directory, info, t);
    if infoFiles.Err? {
      InfoFileOutcome(info, fs.faults, from);
      return Err(infoFiles.error);
    }
    CountOn(fs.faults, from, 2, |InfoPlan(info)|);
    r := OpenEndpoints(fs, dir, info, infoFiles.value, t);
    FillingExplained(t, dir, info, fs.faults, from, r);
  }

  lemma EndpointsFresh(t: Tree, dir: Path, info: RegistrationInfo)
    requires WellFormed(t) && dir !in t
    ensures forall name | name in {Ready, Control, Interrupt} :: dir + [name] !in InfoTree(t, dir, info)
    ensures Latest(InfoPlan(info), Control).None? && Latest(InfoPlan(info), Interrupt).None?
    ensures forall m: FileName, n: FileName | m != n :: dir + [m] != dir + [n]
  {
    forall m: FileName, n: FileName | m != n
      ensures dir + [m] != dir + [n]
    {
      assert (dir + [m])[|dir|] == m && (dir + [n])[|dir|] == n;
    }
    EndpointNames(info, Control);
    EndpointNames(info, Interrupt);
    forall name | name in {Ready, Control, Interrupt}
      ensures dir + [name] !in InfoTree(t, dir, info)
    {
      EndpointNames(info, name);
      NothingUnderMissing(t, dir, dir + [name]);
      WriteEntriesAt(t[dir := Directory], dir, InfoPlan(info), dir + [name]);
    }
  }
}
