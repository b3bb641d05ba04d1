/**
 * The MATLAB gateway of the native lister: it checks its arguments, lists
 * the immediate contents of one folder and packs, for every listed path, the
 * stored path, its file name and its kind code into three parallel outputs.
 *
 * The operating system is a value of `FileSystem`: what the directory
 * iterator yields for a folder, what `canonical` makes of a path and what
 * `status` reports for it.
 */
module MexListfiles {
  import opened Wrappers
  import opened FileKinds
  import opened FsPaths

  // `None` names both a file kind and an empty option here, so this module
  // always writes it qualified: `FileType.None` or `Option.None`.

  /** One element yielded by the directory iterator. */
  datatype DirEntry = DirEntry(path: Path)

  /**
   * The operating system as the gateway sees it. `status` is the error-code
   * form of the query: it gives `FileType.None` when the query fails for any
   * reason other than a missing path element (`NotFound`) or attributes that
   * cannot be read (`Unknown`), for example on a symbolic-link loop or a
   * missing search permission. The gateway calls the throwing form, which
   * throws exactly when the error-code form gives `FileType.None`, so the
   * call then ends in an error and code 0 is never stored.
   */
  datatype FileSystem = FileSystem(
    iterate: Path -> seq<DirEntry>,  // the entries of a folder, in iteration order
    canonical: Path -> Path,         // `std::filesystem::canonical`
    status: Path -> FileType)        // the kind `std::filesystem::status` determines

  /** The MATLAB values a caller can pass in, as far as the gateway inspects them. */
  datatype MxValue =
    | CharArray(text: string)
    | LogicalArray(flags: seq<bool>)
    | OtherArray

  /** The argument errors the gateway raises, in the order it checks them. */
  datatype ArgError = WrongInputCount | TooManyOutputs | FolderNotChar

  /** How a call of the gateway fails: a bad argument, or a path whose status reports `none`. */
  datatype MexError = BadArgument(reason: ArgError) | StatusFailed(path: Path)

  /** The three outputs: paths, file names and kind codes, one slot per listed path. */
  datatype Outputs = Outputs(filepaths: seq<Path>, filenames: seq<string>, types: seq<uint8>)

  /** The paths of a sequence of directory entries, in order. */
  function EntryPaths(entries: seq<DirEntry>): (paths: seq<Path>)
    ensures |paths| == |entries|
    ensures forall k :: 0 <= k < |entries| ==> paths[k] == entries[k].path
  {
    seq(|entries|, k requires 0 <= k < |entries| => entries[k].path)
  }

  /**
   * Lists a folder: one path per entry the iterator yields, in the order it
   * yields them, and nothing else.
   */
  method GetContents(folder: Path, fs: FileSystem) returns (files: seq<Path>)
    ensures files == EntryPaths(fs.iterate(folder))
  {
    var entries := fs.iterate(folder);
    files := [];
    for n := 0 to |entries|
      invariant |files| == n
      invariant forall k :: 0 <= k < n ==> files[k] == entries[k].path
    {
      files := files + [entries[n].path];
    }
  }

  /**
   * The first argument error, if any: the input count is checked first, then
   * the output count, then the class of the folder argument.
   */
  function ArgumentError(nargout: int, inputs: seq<MxValue>): (e: Option<ArgError>)
    ensures e.None? <==> |inputs| == 2 && nargout <= 3 && inputs[0].CharArray?
    ensures e == Option.Some(WrongInputCount) <==> |inputs| != 2
    ensures e == Option.Some(TooManyOutputs) <==> |inputs| == 2 && nargout > 3
  {
    if |inputs| != 2 then Option.Some(WrongInputCount)
    else if nargout > 3 then Option.Some(TooManyOutputs)
    else if !inputs[0].CharArray? then Option.Some(FolderNotChar)
    else Option.None
  }

  /** The path stored for a listed path: itself, or its canonical form when asked. */
  function StoredPath(listed: Path, makeCanonical: bool, fs: FileSystem): Path {
    if makeCanonical then fs.canonical(listed) else listed
  }

  /**
   * The index of the first listed path, from `from` on, for whose stored path
   * status reports `none`, or the length of the listing when there is none
   * from `from` on.
   */
  function FirstStatusFailure(listed: seq<Path>, makeCanonical: bool, fs: FileSystem, from: nat): (j: nat)
    requires from <= |listed|
    ensures from <= j <= |listed|
    ensures forall k :: from <= k < j ==>
              fs.status(StoredPath(listed[k], makeCanonical, fs)) != FileType.None
    ensures j < |listed| ==>
              fs.status(StoredPath(listed[j], makeCanonical, fs)) == FileType.None
    decreases |listed| - from
  {
    if from == |listed| then from
    else if fs.status(StoredPath(listed[from], makeCanonical, fs)) == FileType.None then from
    else FirstStatusFailure(listed, makeCanonical, fs, from + 1)
  }

  /** The first failure is the only index with the properties `FirstStatusFailure` promises from 0 on. */
  lemma FirstStatusFailureUnique(listed: seq<Path>, makeCanonical: bool, fs: FileSystem, i: nat)
    requires i <= |listed|
    requires forall k :: 0 <= k < i ==>
               fs.status(StoredPath(listed[k], makeCanonical, fs)) != FileType.None
    requires i < |listed| ==>
               fs.status(StoredPath(listed[i], makeCanonical, fs)) == FileType.None
    ensures FirstStatusFailure(listed, makeCanonical, fs, 0) == i
  {
    var j := FirstStatusFailure(listed, makeCanonical, fs, 0);
    assert !(j < i) && !(i < j);
  }

  /**
   * `out` describes the listed paths: three outputs of the same length as
   * the listing, slot k holding the stored path of the k-th listed path, the
   * file name of that stored path and the code of the kind of that stored path.
   */
  predicate Describes(out: Outputs, listed: seq<Path>, makeCanonical: bool, fs: FileSystem) {
    |out.filepaths| == |listed| && |out.filenames| == |listed| && |out.types| == |listed| &&
    forall k :: 0 <= k < |listed| ==>
      Slot(out.filepaths[k], out.filenames[k], out.types[k], listed[k], makeCanonical, fs)
  }

  /**
   * One slot of the outputs for the listed path `listed`: the stored path,
   * the file name of that stored path and the code of its kind.
   */
  predicate Slot(filepath: Path, filename: string, code: uint8, listed: Path, makeCanonical: bool, fs: FileSystem) {
    filepath == StoredPath(listed, makeCanonical, fs) &&
    filename == Filename(filepath) &&
    code == FiletypeToUint8(fs.status(filepath))
  }

  /**
   * The outcome of packing the listed paths: the failure at the first stored
   * path for which status reports `none`, or else outputs that describe the
   * listing.
   */
  predicate Reports(r: Result<Outputs, MexError>, listed: seq<Path>, makeCanonical: bool, fs: FileSystem) {
    var j := FirstStatusFailure(listed, makeCanonical, fs, 0);
    if j < |listed| then
      r == Failure(StatusFailed(StoredPath(listed[j], makeCanonical, fs)))
    else
      r.Success? && Describes(r.value, listed, makeCanonical, fs)
  }

  /**
   * What the gateway does with the listed paths: allocate three output
   * buffers of the listing's length and fill them through one index, one
   * slot per listed path, stopping at the first stored path for which status
   * reports `none`.
   */
  method PackPaths(paths: seq<Path>, makeCanonical: bool, fs: FileSystem)
      returns (r: Result<Outputs, MexError>)
    ensures Reports(r, paths, makeCanonical, fs)
  {
    var n := |paths|;
    var outFilepaths := new Path[n];
    var outFilenames := new string[n];
    var outType := new uint8[n];

    var i := 0;
    while i < n
      invariant 0 <= i <= n
      invariant forall k :: 0 <= k < i ==> outType[k] != 0
      invariant forall k :: 0 <= k < i ==>
                  Slot(outFilepaths[k], outFilenames[k], outType[k], paths[k], makeCanonical, fs)
    {
      var p := paths[i];
      if makeCanonical {
        p := fs.canonical(p);
      }
      var s := fs.status(p);
      if s == FileType.None {
        FirstStatusFailureUnique(paths, makeCanonical, fs, i);
        return Failure(StatusFailed(p));
      }
      var name, code := Filename(p), FiletypeToUint8(s);
      outFilepaths[i], outFilenames[i], outType[i] := p, name, code;
      i := i + 1;
    }
    FirstStatusFailureUnique(paths, makeCanonical, fs, n);
    var out := Outputs(outFilepaths[..], outFilenames[..], outType[..]);
    assert Describes(out, paths, makeCanonical, fs);
    r := Success(out);
  }

  /**
   * The gateway. With a wrong argument it fails with an error that depends on
   * the arguments alone. Otherwise its outcome is given by one listing of the
   * folder: it fills the three output buffers through one index, and fails
   * at the first stored path for which status reports `none`.
   * The second input is read as a logical flag without being checked, so a
   * caller who gets past the checks must pass a non-empty logical array.
   */
  method MexFunction(nargout: int, inputs: seq<MxValue>, fs: FileSystem)
      returns (r: Result<Outputs, MexError>)
    requires ArgumentError(nargout, inputs).None? ==>
               inputs[1].LogicalArray? && |inputs[1].flags| > 0
    ensures ArgumentError(nargout, inputs).Some? ==>
              r == Failure(BadArgument(ArgumentError(nargout, inputs).value))
    ensures ArgumentError(nargout, inputs).None? ==>
              Reports(r, EntryPaths(fs.iterate(inputs[0].text)), inputs[1].flags[0], fs)
  {
    var err := ArgumentError(nargout, inputs);
    if err.Some? {
      return Failure(BadArgument(err.value));
    }
    var folder := inputs[0].text;
    var makeCanonical := inputs[1].flags[0];

    var paths := GetContents(folder, fs);
    r := PackPaths(paths, makeCanonical, fs);
  }

  /**
   * The outputs are determined by the listing: two calls over the same,
   * unchanged folder give identical outputs.
   */
  lemma OutputsDetermined(a: Outputs, b: Outputs, listed: seq<Path>, makeCanonical: bool, fs: FileSystem)
    requires Describes(a, listed, makeCanonical, fs)
    requires Describes(b, listed, makeCanonical, fs)
    ensures a == b
  {
    assert a.filepaths == b.filepaths;
    assert a.filenames == b.filenames;
    assert a.types == b.types;
  }

  /**
   * Every type code lies in 0..9, and a code other than 9 decodes to exactly
   * the kind `status` reported for the stored path.
   */
  lemma TypeCodesDecode(out: Outputs, listed: seq<Path>, makeCanonical: bool, fs: FileSystem, k: nat)
    requires Describes(out, listed, makeCanonical, fs)
    requires k < |listed|
    ensures out.types[k] <= 9
    ensures KindOfCode(out.types[k]).Some?
    ensures HasOwnCode(fs.status(out.filepaths[k])) ==>
              KindOfCode(out.types[k]) == Option.Some(fs.status(out.filepaths[k]))
    ensures out.types[k] == 9 <==> !HasOwnCode(fs.status(out.filepaths[k]))
  {
    if HasOwnCode(fs.status(out.filepaths[k])) {
      DecodeEncode(fs.status(out.filepaths[k]));
    }
  }

  /**
   * A successful call never stores code 0: a status of `none` ends the call
   * in an error instead.
   */
  lemma NoCodeZero(r: Result<Outputs, MexError>, listed: seq<Path>, makeCanonical: bool, fs: FileSystem, k: nat)
    requires Reports(r, listed, makeCanonical, fs) && r.Success?
    requires k < |listed|
    ensures 1 <= r.value.types[k] <= 9
  {
    var stored := StoredPath(listed[k], makeCanonical, fs);
    assert FirstStatusFailure(listed, makeCanonical, fs, 0) == |listed|;
    assert fs.status(stored) != FileType.None;
    assert r.value.types[k] == FiletypeToUint8(fs.status(stored));
  }

  /**
   * Without canonicalisation the stored paths are the listed paths
   * unchanged, and an entry listed as `folder/name` is reported under `name`.
   */
  lemma RawListing(out: Outputs, listed: seq<Path>, fs: FileSystem, folder: Path, k: nat, name: string)
    requires Describes(out, listed, false, fs)
    requires k < |listed| && listed[k] == folder + "/" + name && NoSeparator(name)
    ensures out.filepaths[k] == listed[k]
    ensures out.filenames[k] == name
  {
    FilenameOfJoin(folder, name);
  }
}
