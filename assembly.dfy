/**
 * Resource assembly: registering the manifest, each icon file's images and
 * group directory, and the version information into one container, in a
 * fixed order, drawing ids from one allocator.
 */
module Assembly {
  import opened Binary
  import opened Errors
  import opened Icons
  import opened Container
  import opened Ids
  import opened Text
  import opened Serializer

  /**
   * What the tool can learn about one input file: the image headers the icon
   * decoder reports for it (None: the decoder rejects it) and the version
   * resource the version builder produces from it (None: reading or parsing
   * fails). A path missing from the map cannot be opened, and the empty path
   * is never in it: opening "" always fails.
   */
  datatype FileView = FileView(iconHeaders: Option<seq<IconDirEntry>>, versionInfo: Option<seq<byte>>)

  type Files = m: map<string, FileView> | "" !in m

  /** The resources registered so far and the number of ids drawn so far. */
  datatype Registered = Registered(entries: seq<Entry>, drawn: nat)

  /** The icon resource for one image: the image's byte range in the icon file. */
  function ImageEntries(path: string, icons: seq<IconDirEntry>, drawn: nat): (es: seq<Entry>)
    ensures |es| == |icons|
  {
    seq(|icons|, i requires 0 <= i < |icons| =>
      Resource(RT_ICON, IdAt(drawn + i), Section(path, icons[i].imageOffset, icons[i].common.bytesInRes)))
  }

  /** The group entries: each image's header fields with the id its icon resource got. */
  function GroupEntries(icons: seq<IconDirEntry>, drawn: nat): (es: seq<GroupEntry>)
    ensures |es| == |icons|
  {
    seq(|icons|, i requires 0 <= i < |icons| => GroupEntry(icons[i].common, IdAt(drawn + i)))
  }

  /** The group header: reserved 0, type 1, and the image count truncated to 16 bits. */
  function GroupHeader(n: nat): IconDir
  {
    IconDir(0, 1, (n % 0x1_0000) as uint16)
  }

  /**
   * What one icon file with the given decoded images adds when `drawn` ids
   * have been drawn before: one icon resource per image, then the group.
   * An icon file without images adds nothing.
   */
  function IconGroup(path: string, icons: seq<IconDirEntry>, drawn: nat): seq<Entry>
  {
    if |icons| == 0 then []
    else
      ImageEntries(path, icons, drawn) +
      [Resource(RT_GROUP_ICON, IdAt(drawn + |icons|),
                Group(GroupDir(GroupHeader(|icons|), GroupEntries(icons, drawn))))]
  }

  /** The effect of adding one icon file: open it, decode it, register its images and group. */
  function IconStep(path: string, files: Files, reg: Registered): Result<Registered>
  {
    if path !in files then Err(OpenFailed(path))
    else match files[path].iconHeaders
      case None => Err(BadIconHeaders(path))
      case Some(icons) =>
        var added := IconGroup(path, icons, reg.drawn);
        Ok(Registered(reg.entries + added, reg.drawn + |added|))
  }

  /** For N > 0 images: N icon resources bound to the images, then one group resource that lists them. */
  lemma IconGroupShape(path: string, icons: seq<IconDirEntry>, drawn: nat)
    requires |icons| > 0
    ensures var es := IconGroup(path, icons, drawn);
      |es| == |icons| + 1 &&
      (forall i :: 0 <= i < |icons| ==>
        es[i] == Resource(RT_ICON, IdAt(drawn + i), Section(path, icons[i].imageOffset, icons[i].common.bytesInRes))) &&
      es[|icons|].Resource? && es[|icons|].kind == RT_GROUP_ICON && es[|icons|].id == IdAt(drawn + |icons|) &&
      es[|icons|].payload.Group? &&
      es[|icons|].payload.dir.header == IconDir(0, 1, (|icons| % 0x1_0000) as uint16) &&
      |es[|icons|].payload.dir.entries| == |icons| &&
      (forall i :: 0 <= i < |icons| ==>
        es[|icons|].payload.dir.entries[i] == GroupEntry(icons[i].common, es[i].id))
  {
  }

  /**
   * Below the wrap-around of the id counter: the group's count is N, the
   * ids are drawn+1 .. drawn+N+1 in order, and the group's id is larger than
   * every image id of the same file.
   */
  lemma IconGroupIds(path: string, icons: seq<IconDirEntry>, drawn: nat)
    requires |icons| > 0 && drawn + |icons| < 0xFFFF
    ensures var es := IconGroup(path, icons, drawn);
      es[|icons|].payload.dir.header.count as int == |icons| &&
      (forall i :: 0 <= i <= |icons| ==> es[i].id as int == drawn + i + 1) &&
      (forall i :: 0 <= i < |icons| ==> es[i].id < es[|icons|].id)
  {
  }

  /**
   * The group directory registered for N images serializes to Size = 6 + 14 * N
   * bytes, beginning with reserved 0, type 1 and the count, little-endian.
   */
  lemma IconGroupBytes(path: string, icons: seq<IconDirEntry>, drawn: nat)
    requires 0 < |icons| < 0x1_0000
    ensures var dir := IconGroup(path, icons, drawn)[|icons|].payload.dir;
      var bytes := Flatten(GroupNode(dir));
      |bytes| == Size(dir) == IconDirSize + |icons| * GroupEntrySize &&
      bytes[..IconDirSize] == [0, 0, 1, 0, (|icons| % 256) as byte, (|icons| / 256) as byte]
  {
    var dir := IconGroup(path, icons, drawn)[|icons|].payload.dir;
    GroupSize(dir);
    GroupStartsWithHeader(dir);
  }

  /**
   * Registers one icon file: a failure to open or decode it registers
   * nothing; otherwise the container and the allocator advance as IconStep says.
   */
  method AddIcon(c: Coff, ids: IdAllocator, path: string, files: Files) returns (err: Option<Error>)
    requires ids.Valid() && !c.frozen
    modifies c, ids
    ensures ids.Valid() && !c.frozen && c.arch == old(c.arch)
    ensures var step := IconStep(path, files, old(Registered(c.entries, ids.drawn)));
      match step
      case Ok(reg) => err == None && c.entries == reg.entries && ids.drawn == reg.drawn
      case Err(e) => err == Some(e) && c.entries == old(c.entries) && ids.drawn == old(ids.drawn)
  {
    if path !in files {
      return Some(OpenFailed(path));
    }
    var headers := files[path].iconHeaders;
    if headers.None? {
      return Some(BadIconHeaders(path));
    }
    var icons := headers.value;
    if |icons| > 0 {
      ghost var entries0, drawn0 := c.entries, ids.drawn;
      var group := GroupDir(GroupHeader(|icons|), []);
      for i := 0 to |icons|
        invariant ids.Valid() && !c.frozen && c.arch == old(c.arch)
        invariant ids.drawn == drawn0 + i
        invariant c.entries == entries0 + ImageEntries(path, icons[..i], drawn0)
        invariant group == GroupDir(GroupHeader(|icons|), GroupEntries(icons[..i], drawn0))
      {
        var id := ids.Next();
        c.AddResource(RT_ICON, id, Section(path, icons[i].imageOffset, icons[i].common.bytesInRes));
        group := group.(entries := group.entries + [GroupEntry(icons[i].common, id)]);
        assert ImageEntries(path, icons[..i + 1], drawn0) ==
          ImageEntries(path, icons[..i], drawn0) +
          [Resource(RT_ICON, id, Section(path, icons[i].imageOffset, icons[i].common.bytesInRes))];
        assert GroupEntries(icons[..i + 1], drawn0) ==
          GroupEntries(icons[..i], drawn0) + [GroupEntry(icons[i].common, id)];
      }
      assert icons[..|icons|] == icons;
      var id := ids.Next();
      c.AddResource(RT_GROUP_ICON, id, Group(group));
    }
    return None;
  }

  /** The version resource: always id 1, holding the bytes the version builder produced. */
  function VersionEntry(path: string, files: Files): Result<Entry>
  {
    if path !in files then Err(OpenFailed(path))
    else match files[path].versionInfo
      case None => Err(BadVersionInfo(path))
      case Some(bytes) => Ok(Resource(RT_VERSION, 1, Buffer(bytes)))
  }

  /** Registers the version resource under the fixed id 1; on failure registers nothing. */
  method AddVersion(c: Coff, path: string, files: Files) returns (err: Option<Error>)
    requires !c.frozen
    modifies c
    ensures !c.frozen && c.arch == old(c.arch)
    ensures match VersionEntry(path, files)
      case Ok(v) => err == None && c.entries == old(c.entries) + [v]
      case Err(e) => err == Some(e) && c.entries == old(c.entries)
  {
    if path !in files {
      return Some(OpenFailed(path));
    }
    var info := files[path].versionInfo;
    if info.None? {
      return Some(BadVersionInfo(path));
    }
    c.AddResource(RT_VERSION, 1, Buffer(info.value));
    return None;
  }

  /** The manifest, when one is named, takes the first id. */
  function ManifestStep(manifest: string, files: Files): Result<Registered>
  {
    if manifest == "" then Ok(Registered([], 0))
    else if manifest !in files then Err(OpenFailed(manifest))
    else Ok(Registered([Resource(RT_MANIFEST, IdAt(0), WholeFile(manifest))], 1))
  }

  /** The icon files in list order, each continuing from where the previous one left off. */
  function IconsFrom(paths: seq<string>, files: Files, reg: Registered): Result<Registered>
    decreases |paths|
  {
    if |paths| == 0 then Ok(reg)
    else
      var before :- IconsFrom(paths[..|paths| - 1], files, reg);
      IconStep(paths[|paths| - 1], files, before)
  }

  /**
   * The resources a run registers, in order: the manifest, the images and
   * group of each comma-separated icon file left to right, and the version
   * resource; or the first error met in that order.
   */
  function Plan(manifest: string, icoList: string, version: string, arch: string, files: Files): Result<seq<Entry>>
  {
    if ParseArch(arch).None? then Err(UnknownArch(arch))
    else
      var afterManifest :- ManifestStep(manifest, files);
      var afterIcons :-
        if icoList == "" then Ok(afterManifest)
        else IconsFrom(Split(icoList, ','), files, afterManifest);
      if version == "" then Ok(afterIcons.entries)
      else
        var v :- VersionEntry(version, files);
        Ok(afterIcons.entries + [v])
  }

  /** Once an icon file fails, the files after it are never looked at. */
  lemma {:induction false} IconsFromStops(paths: seq<string>, j: nat, files: Files, reg: Registered)
    requires j <= |paths| && IconsFrom(paths[..j], files, reg).Err?
    ensures IconsFrom(paths, files, reg) == IconsFrom(paths[..j], files, reg)
    decreases |paths| - j
  {
    if j == |paths| {
      assert paths[..j] == paths;
    } else {
      var init := paths[..|paths| - 1];
      assert init[..j] == paths[..j];
      IconsFromStops(init, j, files, reg);
    }
  }

  /** Registers the icon files in list order, stopping at the first one that fails. */
  method AddIcons(c: Coff, ids: IdAllocator, paths: seq<string>, files: Files) returns (err: Option<Error>)
    requires ids.Valid() && !c.frozen
    modifies c, ids
    ensures ids.Valid() && !c.frozen && c.arch == old(c.arch)
    ensures var all := IconsFrom(paths, files, old(Registered(c.entries, ids.drawn)));
      match all
      case Ok(reg) => err == None && c.entries == reg.entries && ids.drawn == reg.drawn
      case Err(e) => err == Some(e)
  {
    ghost var start := Registered(c.entries, ids.drawn);
    for i := 0 to |paths|
      invariant ids.Valid() && !c.frozen && c.arch == old(c.arch)
      invariant IconsFrom(paths[..i], files, start) == Ok(Registered(c.entries, ids.drawn))
    {
      assert paths[..i + 1][..i] == paths[..i];
      err := AddIcon(c, ids, paths[i], files);
      if err.Some? {
        IconsFromStops(paths, i + 1, files, start);
        return;
      }
    }
    assert paths[..|paths|] == paths;
    return None;
  }

  /**
   * Builds the container the way the tool does: check the architecture,
   * register the manifest, each icon file in list order and the version
   * resource, then freeze. The result is the frozen container's entries.
   */
  method Run(manifest: string, icoList: string, version: string, arch: string, files: Files)
    returns (res: Result<seq<Entry>>)
    ensures res == Plan(manifest, icoList, version, arch, files)
  {
    var ids := new IdAllocator();
    var c := new Coff(Rsrc);
    var archErr := c.SetArch(arch);
    if archErr.Some? {
      return Err(archErr.value);
    }
    if manifest != "" {
      if manifest !in files {
        return Err(OpenFailed(manifest));
      }
      var id := ids.Next();
      c.AddResource(RT_MANIFEST, id, WholeFile(manifest));
      assert c.entries == [Resource(RT_MANIFEST, IdAt(0), WholeFile(manifest))];
      assert ids.drawn == 1;
    }
    ghost var start := Registered(c.entries, ids.drawn);
    assert ManifestStep(manifest, files) == Ok(start);
    if icoList != "" {
      var err := AddIcons(c, ids, Split(icoList, ','), files);
      if err.Some? {
        return Err(err.value);
      }
    }
    if version != "" {
      var err := AddVersion(c, version, files);
      if err.Some? {
        return Err(err.value);
      }
    }
    c.Freeze();
    return Ok(c.entries);
  }

  /**
   * Every registered resource carries the id of its own draw: the k-th
   * registration took the k-th id, and none of them is the version resource.
   */
  ghost predicate Numbered(reg: Registered)
  {
    reg.drawn == |reg.entries| &&
    forall k :: 0 <= k < |reg.entries| ==>
      reg.entries[k].Resource? && reg.entries[k].id == IdAt(k) && reg.entries[k].kind != RT_VERSION
  }

  lemma IconStepNumbered(path: string, files: Files, reg: Registered)
    requires Numbered(reg) && IconStep(path, files, reg).Ok?
    ensures Numbered(IconStep(path, files, reg).value)
  {
  }

  lemma {:induction false} IconsFromNumbered(paths: seq<string>, files: Files, reg: Registered)
    requires Numbered(reg) && IconsFrom(paths, files, reg).Ok?
    ensures Numbered(IconsFrom(paths, files, reg).value)
    decreases |paths|
  {
    if |paths| > 0 {
      var init := paths[..|paths| - 1];
      IconsFromNumbered(init, files, reg);
      IconStepNumbered(paths[|paths| - 1], files, IconsFrom(init, files, reg).value);
    }
  }

  /**
   * The ids of a successful run: the allocated resources are numbered by
   * registration order with the ids the allocator hands out (1, 2, 3, ...
   * below the wrap-around), and a version resource, when given, comes last
   * with the fixed id 1.
   */
  lemma PlanIds(manifest: string, icoList: string, version: string, arch: string, files: Files)
    requires Plan(manifest, icoList, version, arch, files).Ok?
    ensures var es := Plan(manifest, icoList, version, arch, files).value;
      var n := if version == "" then |es| else |es| - 1;
      0 <= n &&
      (forall k :: 0 <= k < n ==>
        es[k].Resource? && es[k].kind != RT_VERSION && es[k].id == IdAt(k)) &&
      (version != "" ==> es[n].Resource? && es[n].kind == RT_VERSION && es[n].id == 1)
  {
    var m := ManifestStep(manifest, files).value;
    assert Numbered(m);
    if icoList != "" {
      IconsFromNumbered(Split(icoList, ','), files, m);
    }
  }

  /** Below the wrap-around, no two allocated ids of a run are equal, and they increase. */
  lemma PlanIdsIncrease(manifest: string, icoList: string, version: string, arch: string, files: Files)
    requires Plan(manifest, icoList, version, arch, files).Ok?
    requires |Plan(manifest, icoList, version, arch, files).value| <= 0xFFFF
    ensures var es := Plan(manifest, icoList, version, arch, files).value;
      var n := if version == "" then |es| else |es| - 1;
      forall j, k :: 0 <= j < k < n ==> es[j].Resource? && es[k].Resource? && es[j].id < es[k].id
  {
    PlanIds(manifest, icoList, version, arch, files);
  }

  /**
   * The version resource's fixed id 1 is also the first id the allocator hands
   * out: with a manifest or an icon registered before it, two resources of the
   * run share id 1.
   */
  lemma VersionIdCollides(manifest: string, icoList: string, version: string, arch: string, files: Files)
    requires Plan(manifest, icoList, version, arch, files).Ok?
    requires version != "" && |Plan(manifest, icoList, version, arch, files).value| >= 2
    ensures var es := Plan(manifest, icoList, version, arch, files).value;
      es[0].Resource? && es[|es| - 1].Resource? &&
      es[0].id == 1 && es[|es| - 1].id == 1 && es[0].kind != es[|es| - 1].kind &&
      TypeCode(es[0].kind) != TypeCode(es[|es| - 1].kind)
  {
    PlanIds(manifest, icoList, version, arch, files);
    var es := Plan(manifest, icoList, version, arch, files).value;
    TypeCodeInjective(es[0].kind, es[|es| - 1].kind);
  }

  /**
   * Below the wrap-around, no two resources of a successful run share both
   * their type code and their id, even where the version resource and the
   * first allocated resource share id 1.
   */
  lemma PlanKeysDistinct(manifest: string, icoList: string, version: string, arch: string, files: Files)
    requires Plan(manifest, icoList, version, arch, files).Ok?
    requires |Plan(manifest, icoList, version, arch, files).value| <= 0xFFFF
    ensures var es := Plan(manifest, icoList, version, arch, files).value;
      forall j, k :: 0 <= j < k < |es| ==>
        es[j].Resource? && es[k].Resource? &&
        (TypeCode(es[j].kind), es[j].id) != (TypeCode(es[k].kind), es[k].id)
  {
    PlanIds(manifest, icoList, version, arch, files);
    var es := Plan(manifest, icoList, version, arch, files).value;
    var n := if version == "" then |es| else |es| - 1;
    forall j, k | 0 <= j < k < |es|
      ensures es[j].Resource? && es[k].Resource? &&
        (TypeCode(es[j].kind), es[j].id) != (TypeCode(es[k].kind), es[k].id)
    {
      if k == n {
        TypeCodeInjective(es[j].kind, es[k].kind);
      }
    }
  }

  /**
   * A trailing comma in the icon list names the empty path, which cannot be
   * opened, so the run fails even when every named icon file is fine.
   */
  lemma TrailingCommaFails(icon: string, files: Files, reg: Registered)
    requires icon != "" && ',' !in icon && IconStep(icon, files, reg).Ok?
    ensures Split(icon + ",", ',') == [icon, ""]
    ensures IconsFrom(Split(icon + ",", ','), files, reg) == Err(OpenFailed(""))
  {
    assert Join([icon, ""], ',') == icon + ",";
    SplitJoin([icon, ""], ',');
    assert [icon, ""][..1] == [icon] && [icon][..0] == [];
    var first := IconStep(icon, files, reg).value;
    assert IconsFrom([icon], files, reg) == Ok(first);
    assert "" !in files;
    assert IconStep("", files, first) == Err(OpenFailed(""));
  }

  /** An icon file whose decoder reports no images registers nothing and draws no id. */
  lemma EmptyIconFile(path: string, files: Files, reg: Registered)
    requires path in files && files[path].iconHeaders == Some([])
    ensures IconStep(path, files, reg) == Ok(reg)
  {
    assert reg.entries + [] == reg.entries;
  }

  /** With only a manifest, the container holds exactly that manifest, under id 1. */
  lemma ManifestOnly(manifest: string, arch: string, files: Files)
    requires manifest in files && manifest != "" && ParseArch(arch).Some?
    ensures Plan(manifest, "", "", arch, files) == Ok([Resource(RT_MANIFEST, 1, WholeFile(manifest))])
  {
  }

  /**
   * A manifest and one icon file with two images: the manifest gets id 1, the
   * images 2 and 3, the group 4, and the container holds those four entries.
   */
  lemma ManifestAndTwoImages(manifest: string, icon: string, a: IconDirEntry, b: IconDirEntry, files: Files)
    requires manifest != "" && icon != "" && ',' !in icon
    requires manifest in files && icon in files && files[icon].iconHeaders == Some([a, b])
    ensures Plan(manifest, icon, "", "386", files) == Ok([
      Resource(RT_MANIFEST, 1, WholeFile(manifest)),
      Resource(RT_ICON, 2, Section(icon, a.imageOffset, a.common.bytesInRes)),
      Resource(RT_ICON, 3, Section(icon, b.imageOffset, b.common.bytesInRes)),
      Resource(RT_GROUP_ICON, 4, Group(GroupDir(IconDir(0, 1, 2), [GroupEntry(a.common, 2), GroupEntry(b.common, 3)])))])
  {
    SplitWithoutSeparator(icon, ',');
    var m := Registered([Resource(RT_MANIFEST, 1, WholeFile(manifest))], 1);
    assert [icon][..0] == [];
    assert IconsFrom([icon], files, m) == IconStep(icon, files, m);
    assert ImageEntries(icon, [a, b], 1) == [
      Resource(RT_ICON, 2, Section(icon, a.imageOffset, a.common.bytesInRes)),
      Resource(RT_ICON, 3, Section(icon, b.imageOffset, b.common.bytesInRes))];
    assert GroupEntries([a, b], 1) == [GroupEntry(a.common, 2), GroupEntry(b.common, 3)];
    assert GroupHeader(2) == IconDir(0, 1, 2);
    assert IconGroup(icon, [a, b], 1) == ImageEntries(icon, [a, b], 1) +
      [Resource(RT_GROUP_ICON, 4, Group(GroupDir(IconDir(0, 1, 2), [GroupEntry(a.common, 2), GroupEntry(b.common, 3)])))];
    assert ManifestStep(manifest, files) == Ok(m);
    var g := IconGroup(icon, [a, b], 1);
    assert |g| == 3;
    assert IconStep(icon, files, m) == Ok(Registered(m.entries + g, 4));
    assert IconsFrom(Split(icon, ','), files, m) == Ok(Registered(m.entries + g, 4));
    assert ParseArch("386").Some?;
    assert Plan(manifest, icon, "", "386", files) == Ok(m.entries + g);
    assert m.entries + g == [
      Resource(RT_MANIFEST, 1, WholeFile(manifest)),
      Resource(RT_ICON, 2, Section(icon, a.imageOffset, a.common.bytesInRes)),
      Resource(RT_ICON, 3, Section(icon, b.imageOffset, b.common.bytesInRes)),
      Resource(RT_GROUP_ICON, 4, Group(GroupDir(IconDir(0, 1, 2), [GroupEntry(a.common, 2), GroupEntry(b.common, 3)])))];
  }
}
