# fsfind native lister, modelled in Dafny

fsfind searches folders from MATLAB. Its fast backend is a MEX gateway,
`mex_listfiles(folder, make_canonical)`. It lists the immediate contents of
one folder and returns three parallel column outputs:

- the path of each entry, canonicalised on request;
- the file name of that path;
- a one-byte code for the entry's kind, as reported by `std::filesystem::status`.

This project models that gateway.

- `FileKinds` holds the kind enumeration (`FileType`) and the kind-to-code mapping `FiletypeToUint8`. `KindOfCode` reads a code back as a kind. With it, `DecodeEncode` and `EncodeDecode` state that the encoding is onto 0..9 and injective on the ten named kinds, and `CodeCollisions` states which kinds share a code.
- `FsPaths` holds paths as strings and `Filename`, the last component of a path.
- `MexListfiles` holds the ordered listing `GetContents`, the argument checks `ArgumentError` and the gateway `MexFunction`. Once the arguments pass, the gateway lists the folder and hands the paths to `PackPaths`. That method fills three freshly allocated output buffers through one index, one slot per listed path. `StoredPath` is the path a slot stores: the listed path itself, or its canonical form when the flag asks for it (mex_listfiles.cpp:99-100). `Slot` states what one slot holds for one listed path, `Describes` states it for every slot, and `Reports` states the whole outcome: the `StatusFailed` error at the first stored path whose status is `none`, or else outputs that satisfy `Describes`.

The operating system is the value of a `FileSystem` datatype. It supplies what the directory iterator yields for a folder, what `canonical` returns for a path and what `status` reports for a path. A MATLAB error (`mexErrMsgTxt`) is a `Failure` result that carries no outputs. The error a bad call fails with depends on the arguments alone.

`FileSystem.status` is the error-code form of `std::filesystem::status`. It gives `none` when the query fails for any reason other than a missing path element (`not_found`) or attributes that cannot be read (`unknown`), for example on a symbolic-link loop or a missing search permission. The gateway calls the throwing form (mex_listfiles.cpp:106), which throws exactly when the error-code form gives `none`. A status of `not_found` or `unknown` is not an error: it is stored as code 1 or 9. The model therefore ends the call with `StatusFailed` at the first stored path whose status is `none`. Code 0 thus never appears in a successful call's outputs (`NoCodeZero`).

The code maps `symlink` to code 4 (mex_listfiles.cpp:41-42), and the model keeps it. Whether `status` can ever report `symlink` depends on the operating system, and the model does not decide it.

## Model

| member | source | states |
|---|---|---|
| FileKinds.FiletypeToUint8 | mex/mex_listfiles/mex_listfiles.cpp:29-56 | every kind gets a code; the code is at most 9; it is 9 exactly for `unknown` and for kinds the switch does not name, and 0 exactly for `none` |
| FileKinds.KindOfCode | mex/mex_listfiles/mex_listfiles.cpp:33-54 | a byte is a code exactly when it is in 0..9, and each code names one of the kinds the switch lists |
| FileKinds.DecodeEncode | mex/mex_listfiles/mex_listfiles.cpp:33-52 | each named kind has its own fixed code: none 0, not_found 1, regular 2, directory 3, symlink 4, block 5, character 6, fifo 7, socket 8, unknown 9 |
| FileKinds.EncodeDecode | mex/mex_listfiles/mex_listfiles.cpp:33-52 | every code in 0..9 is produced by some kind (the mapping is onto 0..9) |
| FileKinds.CodeCollisions | mex/mex_listfiles/mex_listfiles.cpp:51-54 | two kinds share a code if and only if they are equal or both fall on code 9 (`unknown` or the `default` branch) |
| FileKinds.CodeInjective | mex/mex_listfiles/mex_listfiles.cpp:33-50 | on the kinds other than `unknown` and the unnamed ones, equal codes mean equal kinds |
| FsPaths.Filename | mex/mex_listfiles/mex_listfiles.cpp:104 | the file name is a separator-free suffix of the path that starts right after a separator or at the start of the path |
| FsPaths.LastComponentUnique | mex/mex_listfiles/mex_listfiles.cpp:104 | any suffix with those properties is the file name, so the file name is exactly the last component |
| FsPaths.FilenameOfJoin | mex/mex_listfiles/mex_listfiles.cpp:104 | the path `folder/name` has file name `name` |
| MexListfiles.GetContents | mex/mex_listfiles/mex_listfiles.cpp:19-27 | returns one path per directory entry, in the iterator's order, and nothing else (`EntryPaths` of the iterator's entries) |
| MexListfiles.ArgumentError | mex/mex_listfiles/mex_listfiles.cpp:61-76 | no error exactly when there are two inputs, at most three outputs and a char folder; the input count is checked before the output count, and the output count before the folder class |
| MexListfiles.FirstStatusFailure | mex/mex_listfiles/mex_listfiles.cpp:97-107 | the index of the first listed path for whose stored path `status` gives `none`: for every earlier one it gives another kind, and the index is the listing's length when it never gives `none` |
| MexListfiles.FirstStatusFailureUnique | mex/mex_listfiles/mex_listfiles.cpp:97-107 | any index with those two properties is the first failure |
| MexListfiles.PackPaths | mex/mex_listfiles/mex_listfiles.cpp:85-110 | if `status` gives `none` for some stored path, fails at the first such path, as the throwing `status` does; otherwise all three outputs have the listing's length, and slot i holds the i-th listed path (canonicalised when asked), the file name of that stored path, and the code of the status of that same stored path |
| MexListfiles.MexFunction | mex/mex_listfiles/mex_listfiles.cpp:59-115 | a bad argument fails with the first failing check, and that error depends on the arguments alone; otherwise the outcome is the packing of the single listing `fs.iterate(folder)` with the flag from the second input, as `PackPaths` states it |
| MexListfiles.OutputsDetermined | mex/mex_listfiles/mex_listfiles.cpp:94-110 | the outputs are fully determined by the listing, the flag and the filesystem, so two calls over an unchanged folder return identical outputs |
| MexListfiles.TypeCodesDecode | mex/mex_listfiles/mex_listfiles.cpp:106-107 | every output code is in 0..9, and a code other than 9 decodes to the kind `status` reported for the stored path |
| MexListfiles.NoCodeZero | mex/mex_listfiles/mex_listfiles.cpp:106-107 | a successful call stores only codes 1..9, because a status of `none` ends the call in an error |
| MexListfiles.RawListing | mex/mex_listfiles/mex_listfiles.cpp:99-104 | without canonicalisation the stored path is the listed path unchanged, and an entry listed as `folder/name` is reported under `name` |

## Left out

- Filesystem access: `directory_iterator`, `canonical` and `status` are inputs, the fields of `FileSystem`. The model says nothing about how links are resolved or which kinds an operating system reports.
- Exceptions from listing and canonicalisation: `directory_iterator` and `canonical` may throw. The code does not catch them, so MATLAB sees an error. The model treats both as total functions. (The exception from `status` is modelled, as `StatusFailed`.)
- The MEX runtime: allocation of the cell and numeric arrays, `mxCreateString`, `mxArrayToString`, and the non-local exit of `mexErrMsgTxt`. An error is modelled as a `Failure` result, and the outputs are returned as a value rather than stored into `outputs[]`.
- Order of writes within one slot: `PackPaths` writes a slot's path and name only after its kind is known, while the code writes them before calling `status`. A call that fails returns no outputs, so the difference cannot be seen.
- Conversion of a path to `std::string` and to a C string (line 102). Paths are plain strings.
- FsPaths.Filename: covers only the POSIX generic format with `/` as the only separator. Windows separators and root names (`C:`) are not modelled.
- MexListfiles.MexFunction: requires that a call which passes the argument checks supplies a non-empty logical array as its second input. The code reads it through `mxGetLogicals` without checking its class, and the model does not describe what other inputs would do.
- The three outputs are written whatever `nargout` is (up to 3). MATLAB's handling of unrequested outputs is not modelled.
- The recursive search, depthwise filtering, pattern matching, timeouts and match caps of fsfind live in its MATLAB code, which is not part of this model.
