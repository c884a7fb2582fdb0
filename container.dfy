/**
 * The resource container the tool fills: an ordered, append-only list of
 * typed, numbered resources (or, in raw-data mode, named data items) that is
 * frozen before it is written.
 */
module Container {
  import opened Binary
  import opened Errors
  import opened Icons

  /** The resource kinds the tool registers. */
  datatype ResourceType = RT_ICON | RT_GROUP_ICON | RT_VERSION | RT_MANIFEST

  /** The numeric resource-type code of each kind, as the Windows resource section defines it. */
  function TypeCode(t: ResourceType): uint16
  {
    match t
    case RT_ICON => 3
    case RT_GROUP_ICON => 14
    case RT_VERSION => 16
    case RT_MANIFEST => 24
  }

  /** Distinct kinds have distinct codes, so a resource's key is its (kind, id) pair. */
  lemma TypeCodeInjective(a: ResourceType, b: ResourceType)
    ensures TypeCode(a) == TypeCode(b) <==> a == b
  {
  }

  /** What a resource's bytes come from. */
  datatype Payload =
    | Section(file: string, offset: uint32, length: uint32)  // a byte range of an open file
    | WholeFile(file: string)                                // a whole file opened with its size
    | Buffer(bytes: seq<byte>)                               // bytes held in memory
    | Group(dir: GroupDir)                                   // a structured group-icon directory

  datatype Entry =
    | Resource(kind: ResourceType, id: uint16, payload: Payload)
    | Data(symbol: string, payload: Payload)

  datatype Arch = I386 | Amd64

  /** The architectures the container accepts for its header. */
  function ParseArch(name: string): (a: Option<Arch>)
    ensures a.Some? <==> name == "386" || name == "amd64"
  {
    if name == "386" then Some(I386)
    else if name == "amd64" then Some(Amd64)
    else None
  }

  /** A resource section, or a read-only data section for raw-data mode. */
  datatype Layout = Rsrc | Rdata

  class Coff {
    const layout: Layout
    var arch: Option<Arch>
    var entries: seq<Entry>
    var frozen: bool

    constructor (layout: Layout)
      ensures this.layout == layout && arch == None && entries == [] && !frozen
    {
      this.layout := layout;
      arch := None;
      entries := [];
      frozen := false;
    }

    /** Selects the target architecture; an unknown name is an error and changes nothing. */
    method SetArch(name: string) returns (err: Option<Error>)
      modifies this
      ensures err == if ParseArch(name).Some? then None else Some(UnknownArch(name))
      ensures arch == if ParseArch(name).Some? then ParseArch(name) else old(arch)
      ensures entries == old(entries) && frozen == old(frozen)
    {
      var a := ParseArch(name);
      if a.Some? {
        arch := a;
        err := None;
      } else {
        err := Some(UnknownArch(name));
      }
    }

    method AddResource(kind: ResourceType, id: uint16, payload: Payload)
      requires !frozen
      modifies this
      ensures entries == old(entries) + [Resource(kind, id, payload)]
      ensures !frozen && arch == old(arch)
    {
      entries := entries + [Resource(kind, id, payload)];
    }

    method AddData(symbol: string, payload: Payload)
      requires !frozen
      modifies this
      ensures entries == old(entries) + [Data(symbol, payload)]
      ensures !frozen && arch == old(arch)
    {
      entries := entries + [Data(symbol, payload)];
    }

    /** Locks the container: nothing can be added afterwards. */
    method Freeze()
      modifies this
      ensures frozen && entries == old(entries) && arch == old(arch)
    {
      frozen := true;
    }
  }
}
