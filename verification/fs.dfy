/** The part of the file system that the daemon touches, and the owned temporary
    paths of src/fs.rs: an owner deletes its path when it is dropped. */
module FileTree {
  import opened Common

  /** One path component. The names the daemon uses are constructors; module
      AddressName gives their text and shows that the text tells them apart. */
  datatype FileName =
    | SdpXml | ServiceName | ServiceDescription | ProviderName | DeviceSubclass
    | ReportDescriptor | PhysicalDescriptor
    | Ready | Control | Interrupt
    | CommandSocket | EventSocket
    | PeerDirectory(address: Address)
    | Foreign(text: string)

  type Path = seq<FileName>

  datatype Node = Directory | File(data: Bytes) | Socket

  type Tree = map<Path, Node>

  /** `Permissions` marks a failed set_permissions, the one failure that leaks a path. */
  datatype IoError = AlreadyExists | NotFound | Permissions | Other

  /** What the environment does to one system call. A failed write may still leave
      a file with arbitrary contents behind. */
  datatype Fault = Works | Fails | FailsPartially(left: Bytes)

  function At(t: Tree, p: Path): Option<Node> {
    if p in t then Some(t[p]) else None
  }

  predicate Under(p: Path, d: Path) {
    |d| <= |p| && p[..|d|] == d
  }

  predicate ParentIsDirectory(t: Tree, p: Path) {
    |p| > 0 && p[..|p| - 1] in t && t[p[..|p| - 1]] == Directory
  }

  /** Every entry except the root lives in a directory. */
  ghost predicate WellFormed(t: Tree) {
    forall p | p in t && p != [] :: ParentIsDirectory(t, p)
  }

  predicate CanCreate(t: Tree, p: Path) {
    ParentIsDirectory(t, p) && p !in t
  }

  predicate CanWrite(t: Tree, p: Path) {
    ParentIsDirectory(t, p) && (p in t ==> t[p].File?)
  }

  predicate Empty(t: Tree, d: Path) {
    forall p | p in t :: Under(p, d) ==> p == d
  }

  function RemoveFile(t: Tree, p: Path): Tree {
    if p in t && !t[p].Directory? then t - {p} else t
  }

  function RemoveDir(t: Tree, d: Path): Tree {
    if d in t && t[d].Directory? && Empty(t, d) then t - {d} else t
  }

  /** Dropping a vector of owners drops its elements front to back. */
  function RemoveAll(t: Tree, ps: seq<Path>): Tree {
    if ps == [] then t else RemoveAll(RemoveFile(t, ps[0]), ps[1..])
  }

  lemma {:induction false} RemoveAllAt(t: Tree, ps: seq<Path>, p: Path)
    ensures At(RemoveAll(t, ps), p) == if p in ps && At(t, p) != Some(Directory) then None else At(t, p)
  {
    if ps != [] {
      RemoveAllAt(RemoveFile(t, ps[0]), ps[1..], p);
    }
  }

  /** Nothing below a path that is not there. */
  lemma {:induction false} NothingUnderMissing(t: Tree, d: Path, p: Path)
    requires WellFormed(t) && d !in t && Under(p, d)
    ensures p !in t
    decreases |p|
  {
    if p in t {
      if p != d {
        assert p != [] && ParentIsDirectory(t, p);
        assert Under(p[..|p| - 1], d) by {
          assert p[..|p| - 1][..|d|] == p[..|d|];
        }
        NothingUnderMissing(t, d, p[..|p| - 1]);
      }
    }
  }

  class FileSystem {
    var tree: Tree
    var calls: nat
    const faults: nat -> Fault

    constructor (tree: Tree, faults: nat -> Fault)
      ensures this.tree == tree && calls == 0 && this.faults == faults
    {
      this.tree := tree;
      this.calls := 0;
      this.faults := faults;
    }

    method Write(p: Path, data: Bytes) returns (r: Result<(), IoError>)
      modifies this
      ensures r.Ok? <==> CanWrite(old(tree), p) && faults(old(calls)).Works?
      ensures r.Ok? ==> tree == old(tree)[p := File(data)]
      ensures r.Err? ==>
                tree == if CanWrite(old(tree), p) && faults(old(calls)).FailsPartially?
                        then old(tree)[p := File(faults(old(calls)).left)] else old(tree)
      ensures r.Err? ==> !r.error.Permissions?
      ensures calls == old(calls) + 1
    {
      var fault := faults(calls);
      calls := calls + 1;
      if !CanWrite(tree, p) {
        return Err(NotFound);
      }
      match fault
      case Works =>
        tree := tree[p := File(data)];
        r := Ok(());
      case Fails =>
        r := Err(Other);
      case FailsPartially(left) =>
        tree := tree[p := File(left)];
        r := Err(Other);
    }

    /** create_dir, or the bind of a socket: a path that must not exist yet. */
    method Create(p: Path, node: Node) returns (r: Result<(), IoError>)
      modifies this
      ensures r.Ok? <==> CanCreate(old(tree), p) && faults(old(calls)).Works?
      ensures tree == if r.Ok? then old(tree)[p := node] else old(tree)
      ensures r.Err? ==> !r.error.Permissions?
      ensures calls == old(calls) + 1
    {
      var fault := faults(calls);
      calls := calls + 1;
      if p in tree {
        return Err(AlreadyExists);
      } else if !ParentIsDirectory(tree, p) {
        return Err(NotFound);
      } else if !fault.Works? {
        return Err(Other);
      }
      tree := tree[p := node];
      r := Ok(());
    }

    method SetPermissions(p: Path) returns (r: Result<(), IoError>)
      modifies this
      ensures tree == old(tree)
      ensures r.Err? ==> r.error.Permissions?
      ensures r.Ok? <==> p in tree && faults(old(calls)).Works?
      ensures calls == old(calls) + 1
    {
      var fault := faults(calls);
      calls := calls + 1;
      r := if p in tree && fault.Works? then Ok(()) else Err(Permissions);
    }

    method UnlinkFile(p: Path)
      modifies this
      ensures tree == RemoveFile(old(tree), p) && calls == old(calls)
    {
      if p in tree && !tree[p].Directory? {
        tree := tree - {p};
      }
    }

    method Rmdir(d: Path)
      modifies this
      ensures tree == RemoveDir(old(tree), d) && calls == old(calls)
    {
      if d in tree && tree[d].Directory? && Empty(tree, d) {
        tree := tree - {d};
      }
    }
  }

  /** The environment lets `count` calls from number `from` on succeed. */
  ghost predicate AllWork(faults: nat -> Fault, from: nat, count: nat) {
    forall n | from <= n < from + count :: faults(n).Works?
  }

  /** Of the calls from number `from` on, the one `offset` calls later is the first that
      the environment makes fail. */
  ghost predicate FirstFault(faults: nat -> Fault, from: nat, offset: nat) {
    AllWork(faults, from, offset) && !faults(from + offset).Works?
  }

  /** Counting on from `done` calls that worked. */
  lemma CountOn(faults: nat -> Fault, from: nat, done: nat, count: nat)
    ensures AllWork(faults, from, done) ==>
              && (AllWork(faults, from + done, count) <==> AllWork(faults, from, done + count))
              && (FirstFault(faults, from + done, count) <==> FirstFault(faults, from, done + count))
    ensures !AllWork(faults, from, done) ==>
              !AllWork(faults, from, done + count) && !FirstFault(faults, from, done + count)
  {
    assert from + done + count == from + (done + count);
    if AllWork(faults, from, done) && AllWork(faults, from, done + count) {
      assert AllWork(faults, from + done, count);
    }
    if AllWork(faults, from, done) && AllWork(faults, from + done, count) {
      forall n | from <= n < from + (done + count)
        ensures faults(n).Works?
      {
        assert n < from + done || from + done <= n;
      }
    }
  }

  /** TempFile, TempUnixSeqpacketListener and TempUnixDatagram all own one path. */
  datatype Owner = Owner(path: Path)

  /** TempFile::new_with_data. The owner exists before the write, so a failed write
      drops it again and leaves no file behind, not even a partial one. */
  method NewWithData(fs: FileSystem, p: Path, data: Bytes) returns (r: Result<Owner, IoError>)
    modifies fs
    ensures r.Ok? <==> CanWrite(old(fs.tree), p) && fs.faults(old(fs.calls)).Works?
    ensures r.Ok? ==> r.value == Owner(p) && fs.tree == old(fs.tree)[p := File(data)]
    ensures r.Err? ==> fs.tree == RemoveFile(old(fs.tree), p) && !r.error.Permissions?
    ensures fs.calls == old(fs.calls) + 1
  {
    var file := Owner(p);
    var written := fs.Write(p, data);
    if written.Err? {
      DropOwner(fs, file);
      return Err(written.error);
    }
    r := Ok(file);
  }

  /** TempDir::new: no owner exists yet when the permissions cannot be set, so the
      directory is leaked exactly if it could be created and the second call fails. */
  method NewDirectory(fs: FileSystem, p: Path) returns (r: Result<Owner, IoError>)
    modifies fs
    ensures r.Ok? <==> CanCreate(old(fs.tree), p) && AllWork(fs.faults, old(fs.calls), 2)
    ensures r.Ok? ==> r.value == Owner(p)
    ensures r.Err? && r.error.Permissions? <==> CanCreate(old(fs.tree), p) && FirstFault(fs.faults, old(fs.calls), 1)
    ensures fs.tree == if r.Ok? || r.error.Permissions? then old(fs.tree)[p := Directory] else old(fs.tree)
    ensures r.Ok? ==> fs.calls == old(fs.calls) + 2
  {
    var created := fs.Create(p, Directory);
    if created.Err? {
      return Err(created.error);
    }
    var permitted := fs.SetPermissions(p);
    if permitted.Err? {
      return Err(permitted.error);
    }
    r := Ok(Owner(p));
  }

  /** TempUnixDatagram::bind and TempUnixSeqpacketListener::bind. */
  method BindSocket(fs: FileSystem, p: Path) returns (r: Result<Owner, IoError>)
    modifies fs
    ensures r.Ok? <==> CanCreate(old(fs.tree), p) && AllWork(fs.faults, old(fs.calls), 2)
    ensures r.Ok? ==> r.value == Owner(p)
    ensures r.Err? && r.error.Permissions? <==> CanCreate(old(fs.tree), p) && FirstFault(fs.faults, old(fs.calls), 1)
    ensures fs.tree == if r.Ok? || r.error.Permissions? then old(fs.tree)[p := Socket] else old(fs.tree)
    ensures r.Ok? ==> fs.calls == old(fs.calls) + 2
  {
    var bound := fs.Create(p, Socket);
    if bound.Err? {
      return Err(bound.error);
    }
    var permitted := fs.SetPermissions(p);
    if permitted.Err? {
      return Err(permitted.error);
    }
    r := Ok(Owner(p));
  }

  method DropOwner(fs: FileSystem, owner: Owner)
    modifies fs
    ensures fs.tree == RemoveFile(old(fs.tree), owner.path) && fs.calls == old(fs.calls)
  {
    fs.UnlinkFile(owner.path);
  }

  method DropDirectory(fs: FileSystem, owner: Owner)
    modifies fs
    ensures fs.tree == RemoveDir(old(fs.tree), owner.path) && fs.calls == old(fs.calls)
  {
    fs.Rmdir(owner.path);
  }

  function PathsOf(owners: seq<Owner>): (ps: seq<Path>)
    ensures |ps| == |owners| && forall k | 0 <= k < |ps| :: ps[k] == owners[k].path
  {
    seq(|owners|, k requires 0 <= k < |owners| => owners[k].path)
  }

  method DropOwners(fs: FileSystem, owners: seq<Owner>)
    modifies fs
    ensures fs.tree == RemoveAll(old(fs.tree), PathsOf(owners)) && fs.calls == old(fs.calls)
  {
    var k := 0;
    while k < |owners|
      invariant 0 <= k <= |owners| && fs.calls == old(fs.calls)
      invariant RemoveAll(fs.tree, PathsOf(owners)[k..]) == RemoveAll(old(fs.tree), PathsOf(owners))
    {
      assert PathsOf(owners)[k..][1..] == PathsOf(owners)[k + 1..];
      DropOwner(fs, owners[k]);
      k := k + 1;
    }
    assert PathsOf(owners)[k..] == [];
  }
}
