// Directory listing entries (final_platform_layer.hpp:1010-1050, 2865-2899):
// how Win32FillFileEntry_Internal turns a file's name and Windows attribute
// bits into a FileEntry.
module Files {
  import opened Common
  import opened Flags
  import opened CStrings

  datatype FileEntryType = Unknown | File | Directory

  // FileAttributeFlags: Normal = 1 << 0, ReadOnly = 1 << 1, Hidden = 1 << 2,
  // Archive = 1 << 3, System = 1 << 4.
  const ATTR_NORMAL: Bit := 0
  const ATTR_READONLY: Bit := 1
  const ATTR_HIDDEN: Bit := 2
  const ATTR_ARCHIVE: Bit := 3
  const ATTR_SYSTEM: Bit := 4

  // The Windows FILE_ATTRIBUTE_* bits the entry is built from.
  const FILE_ATTRIBUTE_READONLY: Bit := 0
  const FILE_ATTRIBUTE_HIDDEN: Bit := 1
  const FILE_ATTRIBUTE_SYSTEM: Bit := 2
  const FILE_ATTRIBUTE_DIRECTORY: Bit := 4
  const FILE_ATTRIBUTE_ARCHIVE: Bit := 5
  const FILE_ATTRIBUTE_NORMAL: Bit := 7

  const MAX_FILEENTRY_PATH_LENGTH: nat := 1024

  /** A FileEntry without its internal search handle. */
  datatype FileEntry = FileEntry(entryType: FileEntryType, attributes: Flags, path: seq<char>)

  /** A directory bit wins; any of the five file bits makes a file; else unknown. */
  function EntryType(attrs: Flags): (t: FileEntryType)
    ensures t == Directory <==> FILE_ATTRIBUTE_DIRECTORY in attrs
    ensures t == Unknown <==>
      forall b | b in {FILE_ATTRIBUTE_DIRECTORY, FILE_ATTRIBUTE_NORMAL, FILE_ATTRIBUTE_HIDDEN,
                       FILE_ATTRIBUTE_READONLY, FILE_ATTRIBUTE_ARCHIVE, FILE_ATTRIBUTE_SYSTEM} :: b !in attrs
  {
    if FILE_ATTRIBUTE_DIRECTORY in attrs then Directory
    else if FILE_ATTRIBUTE_NORMAL in attrs || FILE_ATTRIBUTE_HIDDEN in attrs
      || FILE_ATTRIBUTE_READONLY in attrs || FILE_ATTRIBUTE_ARCHIVE in attrs
      || FILE_ATTRIBUTE_SYSTEM in attrs then File
    else Unknown
  }

  /**
   * The attribute flags: Normal alone when the normal bit is set, whatever
   * else is set; otherwise Hidden, ReadOnly, Archive and System, each from
   * its own bit.
   */
  function EntryAttributes(attrs: Flags): (a: Flags)
    ensures FILE_ATTRIBUTE_NORMAL in attrs ==> a == {ATTR_NORMAL}
    ensures FILE_ATTRIBUTE_NORMAL !in attrs ==>
      ATTR_NORMAL !in a &&
      (ATTR_HIDDEN in a <==> FILE_ATTRIBUTE_HIDDEN in attrs) &&
      (ATTR_READONLY in a <==> FILE_ATTRIBUTE_READONLY in attrs) &&
      (ATTR_ARCHIVE in a <==> FILE_ATTRIBUTE_ARCHIVE in attrs) &&
      (ATTR_SYSTEM in a <==> FILE_ATTRIBUTE_SYSTEM in attrs)
    ensures a <= {ATTR_NORMAL, ATTR_READONLY, ATTR_HIDDEN, ATTR_ARCHIVE, ATTR_SYSTEM}
  {
    if FILE_ATTRIBUTE_NORMAL in attrs then {ATTR_NORMAL}
    else
      Union(Union(Union(Union(NONE,
        if FILE_ATTRIBUTE_HIDDEN in attrs then {ATTR_HIDDEN} else NONE),
        if FILE_ATTRIBUTE_READONLY in attrs then {ATTR_READONLY} else NONE),
        if FILE_ATTRIBUTE_ARCHIVE in attrs then {ATTR_ARCHIVE} else NONE),
        if FILE_ATTRIBUTE_SYSTEM in attrs then {ATTR_SYSTEM} else NONE)
  }

  /**
   * Win32FillFileEntry_Internal: the file name is copied whole (CopyAnsiString
   * demands room for it and its NUL), then the type and attributes are set.
   */
  function FillFileEntry(fileName: seq<char>, attrs: Flags): (e: FileEntry)
    requires Terminated(fileName) && Len(fileName) + 1 <= MAX_FILEENTRY_PATH_LENGTH
    ensures e.path == Text(fileName) && |e.path| < MAX_FILEENTRY_PATH_LENGTH
    ensures e.entryType == EntryType(attrs) && e.attributes == EntryAttributes(attrs)
  {
    FileEntry(EntryType(attrs), EntryAttributes(attrs), Text(fileName))
  }

  /**
   * Type and attributes agree: a file always carries at least one attribute
   * flag, an unknown entry none; a directory keeps its attribute flags.
   */
  lemma TypeAndAttributesAgree(attrs: Flags)
    ensures EntryType(attrs) == File ==> EntryAttributes(attrs) != NONE
    ensures EntryType(attrs) == Unknown ==> EntryAttributes(attrs) == NONE
    ensures EntryType(attrs) == Directory <==> FILE_ATTRIBUTE_DIRECTORY in attrs
  {
    var a := EntryAttributes(attrs);
    if EntryType(attrs) == File {
      if FILE_ATTRIBUTE_NORMAL !in attrs {
        assert ATTR_HIDDEN in a || ATTR_READONLY in a || ATTR_ARCHIVE in a || ATTR_SYSTEM in a;
      }
    }
    if EntryType(attrs) == Unknown {
      forall b | b in a ensures false {
      }
    }
  }

  /**
   * A hidden entry reports Hidden exactly when the normal bit is clear, and a
   * hidden directory is still a directory.
   */
  lemma NormalHidesOtherAttributes(attrs: Flags)
    requires FILE_ATTRIBUTE_HIDDEN in attrs
    ensures ATTR_HIDDEN in EntryAttributes(attrs) <==> FILE_ATTRIBUTE_NORMAL !in attrs
    ensures EntryType(attrs) == (if FILE_ATTRIBUTE_DIRECTORY in attrs then Directory else File)
  {
  }
}
