/**
 * The icon structures: the ICONDIR header, the per-image header fields the
 * icon decoder reports, and the group-icon directory (GRPICONDIR) that
 * references the individual icon resources by id.
 */
module Icons {
  import opened Binary
  import opened Serializer

  /** ICONDIR: the header shared by icon files and group-icon directories. */
  datatype IconDir = IconDir(reserved: uint16, imageType: uint16, count: uint16)

  /** The header fields of one image that a group entry copies. */
  datatype IconDirEntryCommon = IconDirEntryCommon(
    width: byte, height: byte, colorCount: byte, reserved: byte,
    planes: uint16, bitCount: uint16, bytesInRes: uint32)

  /** One image as the icon decoder reports it: its header and where its bytes start in the file. */
  datatype IconDirEntry = IconDirEntry(common: IconDirEntryCommon, imageOffset: uint32)

  /** GRPICONDIRENTRY: an image's header fields plus the id of its icon resource. */
  datatype GroupEntry = GroupEntry(common: IconDirEntryCommon, id: uint16)

  /** GRPICONDIR: the header followed by the entries in insertion order. */
  datatype GroupDir = GroupDir(header: IconDir, entries: seq<GroupEntry>)

  /** Encoded sizes of ICONDIR and of GRPICONDIRENTRY. */
  const IconDirSize: nat := 6
  const GroupEntrySize: nat := 14

  /**
   * The encoded size of a group directory. The entry size is taken from the
   * first entry, so the directory must not be empty.
   */
  function Size(g: GroupDir): int
    requires |g.entries| > 0
  {
    IconDirSize + |g.entries| * GroupEntrySize
  }

  /** The layout the writer walks: fields in declaration order. */
  function HeaderNode(h: IconDir): Node
  {
    Composite([Plain(U16(h.reserved)), Plain(U16(h.imageType)), Plain(U16(h.count))])
  }

  function CommonNode(c: IconDirEntryCommon): Node
  {
    Composite([Plain(U8(c.width)), Plain(U8(c.height)), Plain(U8(c.colorCount)), Plain(U8(c.reserved)),
               Plain(U16(c.planes)), Plain(U16(c.bitCount)), Plain(U32(c.bytesInRes))])
  }

  function EntryNode(e: GroupEntry): Node
  {
    Composite([CommonNode(e.common), Plain(U16(e.id))])
  }

  function EntryNodes(es: seq<GroupEntry>): (ns: seq<Node>)
    ensures |ns| == |es|
  {
    if |es| == 0 then [] else EntryNodes(es[..|es| - 1]) + [EntryNode(es[|es| - 1])]
  }

  function GroupNode(g: GroupDir): Node
  {
    Composite([HeaderNode(g.header), Composite(EntryNodes(g.entries))])
  }

  /** The header serializes to its three fields, little-endian, in 6 bytes. */
  lemma HeaderBytes(h: IconDir)
    ensures Flatten(HeaderNode(h)) ==
      LittleEndian(h.reserved as nat, 2) + LittleEndian(h.imageType as nat, 2) + LittleEndian(h.count as nat, 2)
    ensures |Flatten(HeaderNode(h))| == IconDirSize
  {
    var a, b, c := Plain(U16(h.reserved)), Plain(U16(h.imageType)), Plain(U16(h.count));
    FlattenThree(a, b, c);
  }

  lemma FlattenThree(a: Node, b: Node, c: Node)
    ensures FlattenAll([a, b, c]) == Flatten(a) + Flatten(b) + Flatten(c)
  {
    FlattenAllAppend([a], [b, c]);
    FlattenAllAppend([b], [c]);
    FlattenAllSingle(a);
    FlattenAllSingle(b);
    FlattenAllSingle(c);
    assert [a, b, c] == [a] + [b, c] && [b, c] == [b] + [c];
  }

  lemma FlattenTwo(a: Node, b: Node)
    ensures FlattenAll([a, b]) == Flatten(a) + Flatten(b)
  {
    FlattenAllAppend([a], [b]);
    FlattenAllSingle(a);
    FlattenAllSingle(b);
    assert [a, b] == [a] + [b];
  }

  /** Each group entry serializes to its header fields then its id, in 14 bytes. */
  lemma EntryBytes(e: GroupEntry)
    ensures Flatten(EntryNode(e)) ==
      LittleEndian(e.common.width as nat, 1) + LittleEndian(e.common.height as nat, 1) +
      LittleEndian(e.common.colorCount as nat, 1) + LittleEndian(e.common.reserved as nat, 1) +
      LittleEndian(e.common.planes as nat, 2) + LittleEndian(e.common.bitCount as nat, 2) +
      LittleEndian(e.common.bytesInRes as nat, 4) + LittleEndian(e.id as nat, 2)
    ensures |Flatten(EntryNode(e))| == GroupEntrySize
    ensures Flatten(EntryNode(e))[GroupEntrySize - 2..] == LittleEndian(e.id as nat, 2)
  {
    var cs := CommonNode(e.common).children;
    FlattenThree(cs[0], cs[1], cs[2]);
    FlattenThree(cs[3], cs[4], cs[5]);
    FlattenAllSingle(cs[6]);
    assert cs == [cs[0], cs[1], cs[2]] + [cs[3], cs[4], cs[5]] + [cs[6]];
    FlattenAllAppend([cs[0], cs[1], cs[2]], [cs[3], cs[4], cs[5]]);
    FlattenAllAppend([cs[0], cs[1], cs[2]] + [cs[3], cs[4], cs[5]], [cs[6]]);
    assert |Flatten(CommonNode(e.common))| == 12;
    FlattenTwo(CommonNode(e.common), Plain(U16(e.id)));
  }

  lemma {:induction false} EntriesLength(es: seq<GroupEntry>)
    ensures |FlattenAll(EntryNodes(es))| == |es| * GroupEntrySize
  {
    if |es| > 0 {
      var ns := EntryNodes(es);
      assert ns[..|ns| - 1] == EntryNodes(es[..|es| - 1]);
      EntriesLength(es[..|es| - 1]);
      EntryBytes(es[|es| - 1]);
    }
  }

  /** Size is exactly the number of bytes the writer emits for the directory. */
  lemma GroupSize(g: GroupDir)
    requires |g.entries| > 0
    ensures Size(g) == |Flatten(GroupNode(g))|
  {
    FlattenTwo(HeaderNode(g.header), Composite(EntryNodes(g.entries)));
    HeaderBytes(g.header);
    EntriesLength(g.entries);
  }

  /** The serialized directory starts with its header's three little-endian fields. */
  lemma GroupStartsWithHeader(g: GroupDir)
    ensures |Flatten(GroupNode(g))| >= IconDirSize
    ensures Flatten(GroupNode(g))[..IconDirSize] ==
      LittleEndian(g.header.reserved as nat, 2) + LittleEndian(g.header.imageType as nat, 2) +
      LittleEndian(g.header.count as nat, 2)
  {
    FlattenTwo(HeaderNode(g.header), Composite(EntryNodes(g.entries)));
    HeaderBytes(g.header);
  }

  /** Entry i of a list occupies bytes [14 i, 14 (i + 1)) of the list's serialization. */
  lemma {:induction false} EntryAt(es: seq<GroupEntry>, i: nat)
    requires i < |es|
    ensures |FlattenAll(EntryNodes(es))| == |es| * GroupEntrySize
    ensures FlattenAll(EntryNodes(es))[i * GroupEntrySize..(i + 1) * GroupEntrySize] == Flatten(EntryNode(es[i]))
  {
    var n := |es|;
    var init := es[..n - 1];
    var ns := EntryNodes(es);
    assert ns[..n - 1] == EntryNodes(init);
    var front, last := FlattenAll(EntryNodes(init)), Flatten(EntryNode(es[n - 1]));
    assert FlattenAll(ns) == front + last;
    EntriesLength(init);
    EntryBytes(es[n - 1]);
    var lo, hi := i * GroupEntrySize, (i + 1) * GroupEntrySize;
    if i < n - 1 {
      EntryAt(init, i);
      assert init[i] == es[i];
      assert hi <= |front|;
      assert (front + last)[lo..hi] == front[lo..hi];
    } else {
      assert lo == |front| && hi == |front + last|;
      assert (front + last)[lo..hi] == last;
    }
  }

  /**
   * The directory's serialization is the header followed by each entry in
   * order: entry i occupies bytes [6 + 14 i, 6 + 14 (i + 1)).
   */
  lemma GroupEntryBytes(g: GroupDir, i: nat)
    requires i < |g.entries|
    ensures |Flatten(GroupNode(g))| == IconDirSize + |g.entries| * GroupEntrySize
    ensures Flatten(GroupNode(g))[IconDirSize + i * GroupEntrySize..IconDirSize + (i + 1) * GroupEntrySize] ==
      Flatten(EntryNode(g.entries[i]))
  {
    FlattenTwo(HeaderNode(g.header), Composite(EntryNodes(g.entries)));
    HeaderBytes(g.header);
    EntryAt(g.entries, i);
  }
}
