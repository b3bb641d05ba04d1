/**
 * The kind of a filesystem entry, as reported by `std::filesystem::status`,
 * and the one-byte code the lister hands back to MATLAB for it.
 */
module FileKinds {
  import Wrappers

  /** An unsigned 8-bit integer, the element type of the lister's type array. */
  newtype uint8 = x: int | 0 <= x < 256

  /**
   * The enumerators of `std::filesystem::file_type`. The standard lets an
   * implementation add kinds of its own (for example a Windows junction);
   * those are `ImplementationDefined`, told apart by an opaque tag.
   */
  datatype FileType =
    | None
    | NotFound
    | Regular
    | Directory
    | Symlink
    | Block
    | Character
    | Fifo
    | Socket
    | Unknown
    | ImplementationDefined(tag: nat)

  /** The kinds that have a code of their own: every named kind but `Unknown`. */
  predicate HasOwnCode(t: FileType) {
    !t.Unknown? && !t.ImplementationDefined?
  }

  /**
   * The code of a kind: total, never above 9, and 9 exactly for `Unknown`
   * and for every kind the switch does not name.
   */
  function FiletypeToUint8(t: FileType): (code: uint8)
    ensures code <= 9
    ensures code == 9 <==> !HasOwnCode(t)
    ensures code == 0 <==> t == None
  {
    match t
    case None => 0
    case NotFound => 1
    case Regular => 2
    case Directory => 3
    case Symlink => 4
    case Block => 5
    case Character => 6
    case Fifo => 7
    case Socket => 8
    case Unknown => 9
    case ImplementationDefined(_) => 9
  }

  /**
   * Reading a code back as a kind: every code in 0..9 names exactly one of
   * the named kinds (9 reads as `Unknown`); no other byte is a code.
   */
  function KindOfCode(code: uint8): (k: Wrappers.Option<FileType>)
    ensures k.Some? <==> code <= 9
    ensures k.Some? ==> !k.value.ImplementationDefined?
  {
    if code == 0 then Wrappers.Some(None)
    else if code == 1 then Wrappers.Some(NotFound)
    else if code == 2 then Wrappers.Some(Regular)
    else if code == 3 then Wrappers.Some(Directory)
    else if code == 4 then Wrappers.Some(Symlink)
    else if code == 5 then Wrappers.Some(Block)
    else if code == 6 then Wrappers.Some(Character)
    else if code == 7 then Wrappers.Some(Fifo)
    else if code == 8 then Wrappers.Some(Socket)
    else if code == 9 then Wrappers.Some(Unknown)
    else Wrappers.None
  }

  /** Decoding the code of a named kind gives that kind back. */
  lemma DecodeEncode(t: FileType)
    requires !t.ImplementationDefined?
    ensures KindOfCode(FiletypeToUint8(t)) == Wrappers.Some(t)
  {
  }

  /** Every code in 0..9 is the code of the kind it decodes to: the encoding is onto 0..9. */
  lemma EncodeDecode(code: uint8)
    requires code <= 9
    ensures KindOfCode(code).Some?
    ensures FiletypeToUint8(KindOfCode(code).value) == code
  {
  }

  /**
   * Two kinds share a code exactly when they are equal or both fall on the
   * catch-all code 9 (`Unknown` or a kind the switch does not name).
   */
  lemma CodeCollisions(a: FileType, b: FileType)
    ensures FiletypeToUint8(a) == FiletypeToUint8(b) <==>
            a == b || (!HasOwnCode(a) && !HasOwnCode(b))
  {
    if FiletypeToUint8(a) == FiletypeToUint8(b) && HasOwnCode(a) {
      DecodeEncode(a);
      DecodeEncode(b);
    }
  }

  /** Restricted to the kinds with a code of their own, the encoding is injective. */
  lemma CodeInjective(a: FileType, b: FileType)
    requires HasOwnCode(a) && HasOwnCode(b)
    requires FiletypeToUint8(a) == FiletypeToUint8(b)
    ensures a == b
  {
    CodeCollisions(a, b);
  }
}
