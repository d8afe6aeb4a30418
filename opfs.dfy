/** The content store of src/lib/utils/wllama.ts: `OPFSManager` over the origin-private
    file system. The `models/` directory is a map from file name to bytes; the root handle
    is optional, and an absent root means "not initialised". A missing `models/` directory
    behaves exactly like an empty one for every operation, so it is not told apart. */
module Opfs {
  import opened Js
  import opened Catalog

  /** The files of the `models/` directory. */
  type Directory = map<string, seq<byte>>

  const Extension: string := ".gguf"

  /** `${modelId}.gguf` */
  function FileName(id: string): string {
    id + Extension
  }

  /** The file stored for `id` under a given root, if there is one. */
  function Lookup(root: Option<Directory>, id: string): Option<seq<byte>> {
    if root.Some? && FileName(id) in root.value then Some(root.value[FileName(id)]) else None
  }

  /** What `loadModel(id)` returns: the whole file, or null when there is no root, no such file, or
      reading the file rejects (`readFails`); every rejection is caught. */
  function Read(root: Option<Directory>, id: string, readFails: bool): Option<seq<byte>> {
    if readFails then None else Lookup(root, id)
  }

  /** Where a `saveModel` write fails: before `getFileHandle(…, {create: true})` has created the file
      (the directory or the file handle is refused), or after it (`createWritable`, `write` or `close`
      rejects). */
  datatype WriteFailure = BeforeCreate(error: Thrown) | AfterCreate(error: Thrown)

  /** What the file system does to one model's cache traffic: whether reading its file rejects, and
      where, if at all, writing it fails. */
  datatype CacheFaults = CacheFaults(readFails: bool, writeFailure: Option<WriteFailure>)

  /** The root after `saveModel(id, data)` settles. A writable's data replaces the file only when it is
      closed, so a failure after the handle exists leaves an existing file as it was and a new file empty. */
  function Stored(root: Option<Directory>, id: string, data: seq<byte>, writeFailure: Option<WriteFailure>): Option<Directory> {
    if root.None? then root
    else match writeFailure
      case None => Some(root.value[FileName(id) := data])
      case Some(BeforeCreate(_)) => root
      case Some(AfterCreate(_)) =>
        if FileName(id) in root.value then root else Some(root.value[FileName(id) := []])
  }

  /** The root after `deleteModel(id)`: a missing entry's `NotFoundError` is caught, so it is a no-op. */
  function Deleted(root: Option<Directory>, id: string): Option<Directory> {
    if root.Some? then Some(root.value - {FileName(id)}) else root
  }

  /** The name `listModels` reports for a file: `name.replace('.gguf', '')` removes the FIRST `.gguf`. */
  function ListedName(fileName: string): string {
    RemoveFirst(fileName, Extension)
  }

  /** The files `listModels` reports: those whose name ends with `.gguf`. */
  ghost function GgufFiles(dir: Directory): set<string> {
    set n | n in dir && EndsWith(n, Extension)
  }

  /** `visited` walks every `.gguf` file of `dir` exactly once, and `names[i]` is the listed name of
      the i-th file walked. */
  ghost predicate ListingOf(names: seq<string>, dir: Directory, visited: seq<string>) {
    && |visited| == |names|
    && (forall i, j :: 0 <= i < j < |visited| ==> visited[i] != visited[j])
    && (forall n :: n in visited <==> n in GgufFiles(dir))
    && (forall i :: 0 <= i < |visited| ==> names[i] == ListedName(visited[i]))
  }

  /** `names` is a listing of `root` as `listModels` produces it, in the order the directory hands its
      entries out; an uninitialised root lists nothing. */
  ghost predicate ListsDirectory(names: seq<string>, root: Option<Directory>) {
    if root.None? then names == []
    else exists visited :: ListingOf(names, root.value, visited)
  }

  /** `id` does not contain `.gguf` anywhere. */
  predicate NoExtensionInside(id: string) {
    forall i: nat :: i < |id| ==> !OccursAt(id, Extension, i)
  }

  class OpfsManager {
    /** The `models/` directory reachable from the root handle; None while not initialised. */
    var root: Option<Directory>

    constructor ()
      ensures root == None
    {
      root := None;
    }

    /** `initialize()`: fails (returning false, root untouched) when `showDirectoryPicker` is missing from
        `window` or `navigator.storage.getDirectory()` rejects (`directory == None`). */
    method Initialize(pickerSupported: bool, directory: Option<Directory>) returns (ok: bool)
      modifies this
      ensures ok <==> pickerSupported && directory.Some?
      ensures root == if ok then directory else old(root)
    {
      if !pickerSupported {
        return false;
      }
      if directory.None? {
        return false;
      }
      root := directory;
      return true;
    }

    /** `saveModel(id, data)`: throws without a root; otherwise creates `${id}.gguf` if it is missing
        and writes `data` through a writable that commits on close. A `writeFailure` is rethrown. */
    method SaveModel(id: string, data: seq<byte>, writeFailure: Option<WriteFailure>) returns (o: Outcome)
      modifies this
      ensures root == Stored(old(root), id, data, writeFailure)
      ensures old(root).None? ==> o == Threw(NewError("OPFS not initialized"))
      ensures old(root).Some? ==> o == if writeFailure.Some? then Threw(writeFailure.value.error) else Returned
    {
      if root.None? {
        return Threw(NewError("OPFS not initialized"));
      }
      if writeFailure.Some? {
        if writeFailure.value.AfterCreate? && FileName(id) !in root.value {
          // getFileHandle with create: true has already made the file, still empty
          root := Some(root.value[FileName(id) := []]);
        }
        return Threw(writeFailure.value.error);
      }
      root := Some(root.value[FileName(id) := data]);
      return Returned;
    }

    /** `loadModel(id)`: the whole file, or null when there is no root, no such file, or reading the
        file rejects (`readFails`). */
    method LoadModel(id: string, readFails: bool) returns (r: Option<seq<byte>>)
      ensures r.Some? <==> !readFails && root.Some? && FileName(id) in root.value
      ensures r.Some? ==> r.value == root.value[FileName(id)]
    {
      if root.None? {
        return None;
      }
      if FileName(id) !in root.value {
        return None;
      }
      if readFails {
        return None;
      }
      return Some(root.value[FileName(id)]);
    }

    /** `hasModel(id)` */
    method HasModel(id: string) returns (b: bool)
      ensures b <==> Lookup(root, id).Some?
    {
      b := root.Some? && FileName(id) in root.value;
    }

    /** `deleteModel(id)`: never throws; a missing root or a missing file leaves the store as it was. */
    method DeleteModel(id: string)
      modifies this
      ensures root == Deleted(old(root), id)
    {
      if root.None? {
        return;
      }
      root := Some(root.value - {FileName(id)});
    }

    /** `listModels()`: walks the directory entries in an order the file system chooses and pushes the
        listed name of every `.gguf` file. */
    method ListModels() returns (names: seq<string>)
      ensures ListsDirectory(names, root)
    {
      if root.None? {
        return [];
      }
      var dir := root.value;
      var pending := dir.Keys;
      names := [];
      ghost var visited: seq<string> := [];
      while pending != {}
        invariant pending <= dir.Keys
        invariant forall n :: n in visited <==> n in dir && n !in pending && EndsWith(n, Extension)
        invariant |visited| == |names|
        invariant forall i, j :: 0 <= i < j < |visited| ==> visited[i] != visited[j]
        invariant forall i :: 0 <= i < |visited| ==> names[i] == ListedName(visited[i])
        decreases pending
      {
        var entry :| entry in pending;
        if EndsWith(entry, Extension) {
          names := names + [ListedName(entry)];
          visited := visited + [entry];
        }
        pending := pending - {entry};
      }
      assert ListingOf(names, dir, visited);
    }
  }

  // ---------------------------------------------------------------------------
  // Lemmas

  /** Distinct ids name distinct files. */
  lemma FileNameInjective(a: string, b: string)
    requires FileName(a) == FileName(b)
    ensures a == b
  {
    assert a == FileName(a)[..|a|];
    assert b == FileName(b)[..|b|];
  }

  /** With the root initialised and no write failure, what `saveModel(id, d)` stored is what `loadModel(id)`
      returns and `hasModel(id)` reports it; every other id reads as before. */
  lemma SaveThenLoad(root: Option<Directory>, id: string, data: seq<byte>, other: string)
    requires root.Some?
    ensures Lookup(Stored(root, id, data, None), id) == Some(data)
    ensures other != id ==> Lookup(Stored(root, id, data, None), other) == Lookup(root, other)
  {
    if other != id && FileName(other) == FileName(id) {
      FileNameInjective(other, id);
    }
  }

  /** After `deleteModel(id)` the id is gone and every other id reads as before. */
  lemma DeleteThenLoad(root: Option<Directory>, id: string, other: string)
    ensures Lookup(Deleted(root, id), id) == None
    ensures other != id ==> Lookup(Deleted(root, id), other) == Lookup(root, other)
  {
    if other != id && FileName(other) == FileName(id) {
      FileNameInjective(other, id);
    }
  }

  /** A save that fails once the file handle exists leaves a new file empty and an existing file as it
      was; one that fails before leaves the store as it was. */
  lemma FailedWriteLeavesFile(root: Option<Directory>, id: string, data: seq<byte>, e: Thrown)
    requires root.Some?
    ensures Lookup(root, id).None? ==> Lookup(Stored(root, id, data, Some(AfterCreate(e))), id) == Some([])
    ensures Lookup(root, id).Some? ==> Stored(root, id, data, Some(AfterCreate(e))) == root
    ensures Stored(root, id, data, Some(BeforeCreate(e))) == root
  {
  }

  /** A file that cannot be read looks absent to `loadModel`, though `hasModel` still finds it. */
  lemma UnreadableFileLooksAbsent(root: Option<Directory>, id: string)
    ensures Read(root, id, true) == None
    ensures Read(root, id, false) == Lookup(root, id)
  {
  }

  /** The listing walks each `.gguf` file once: there are exactly as many names as such files, and
      every such file's listed name appears. */
  lemma ListingCoversEachFileOnce(names: seq<string>, dir: Directory)
    requires ListsDirectory(names, Some(dir))
    ensures |names| == |GgufFiles(dir)|
    ensures forall n :: n in GgufFiles(dir) ==> ListedName(n) in names
  {
    var visited :| ListingOf(names, dir, visited);
    DistinctCount(visited);
    assert (set n | n in visited) == GgufFiles(dir);
    forall n | n in GgufFiles(dir)
      ensures ListedName(n) in names
    {
      var i :| 0 <= i < |visited| && visited[i] == n;
      assert names[i] == ListedName(n);
    }
  }

  /** A sequence without repeats has as many distinct elements as positions. */
  lemma {:induction false} DistinctCount(v: seq<string>)
    requires forall i, j :: 0 <= i < j < |v| ==> v[i] != v[j]
    ensures |set n | n in v| == |v|
  {
    if v != [] {
      var init := v[..|v| - 1];
      DistinctCount(init);
      assert (set n | n in v) == (set n | n in init) + {v[|v| - 1]};
      assert v[|v| - 1] !in (set n | n in init);
    }
  }

  /** Without a root: nothing can be read, a save changes nothing, a delete changes nothing. */
  lemma UninitialisedStore(id: string, data: seq<byte>, failure: Option<WriteFailure>)
    ensures Lookup(None, id) == None
    ensures Stored(None, id, data, failure) == None
    ensures Deleted(None, id) == None
  {
  }

  /** A `.gguf` file whose id contains no `.gguf` is listed under its own id. */
  lemma {:induction false} ListedNameRoundTrip(id: string)
    requires NoExtensionInside(id)
    ensures EndsWith(FileName(id), Extension)
    ensures ListedName(FileName(id)) == id
  {
    var f := FileName(id);
    assert f[|f| - |Extension|..] == Extension;
    assert OccursAt(f, Extension, |id|);
    forall i: nat | i < |id|
      ensures !OccursAt(f, Extension, i)
    {
      if i + 5 <= |id| {
        assert f[i..i + 5] == id[i..i + 5];
        assert !OccursAt(id, Extension, i);
      } else if i + 5 <= |f| {
        // the window would need its last character, an 'f', inside ".ggu"
        assert f[i + 4] == Extension[i + 4 - |id|];
        assert f[i..i + 5][4] == f[i + 4];
      }
    }
    var k := IndexOf(f, Extension, 0);
    assert k == |id|;
    assert f[..k] == id;
  }

  /** Removing the first `.gguf` rather than the suffix: the file of id "a.ggufb" is listed as "ab.gguf". */
  lemma ListedNameFirstOccurrence()
    ensures EndsWith(FileName("a.ggufb"), Extension)
    ensures ListedName(FileName("a.ggufb")) == "ab.gguf"
  {
    var f := FileName("a.ggufb");
    assert f == "a.ggufb.gguf";
    assert f[0..5][0] == 'a' != Extension[0];
    assert OccursAt(f, Extension, 1);
    assert IndexOf(f, Extension, 0) == 1;
    assert f[..1] + f[6..] == "ab.gguf";
  }
}
