/**
  What an archive holds, member by member, and what extracting one member does to any disk,
  also to one that an archive written here never meets.
*/
module TreeMembers {
  import opened Wrappers
  import opened Basics
  import opened TreeMirror

  // ------------------------------------------------------ the members

  /** The member that stands for `obj` at the path that reads `k`. */
  function MemberFor(k: string, obj: Obj): Header {
    match obj
    case DirObj(mode) => Header(k + "/", mode, DirEntry)
    case FileObj(mode, data) => Header(k, mode, RegEntry(data))
  }

  /** `h` stands for what `path` leads to in the tree, under the name of the tree's root. */
  ghost predicate StandsFor(node: Node, base: string, path: seq<string>, obj: Obj, h: Header) {
    Leads(node, path, obj) && h == MemberFor(Path(base, path), obj)
  }

  /** The members of an archive are those for all that paths lead to in the tree, and no others. */
  lemma ArchiveIsExact(node: Node, base: string, h: Header)
    requires base != "" && WellFormed(node)
    ensures h in Archive(node, base) <==> exists path, obj :: StandsFor(node, base, path, obj, h)
  {
    if h in Archive(node, base) {
      var path, obj := MemberLeads(node, base, h);
      assert StandsFor(node, base, path, obj, h);
    }
    if path, obj :| StandsFor(node, base, path, obj, h) {
      LeadsToMember(node, base, path, obj);
    }
  }

  lemma {:induction false} MemberLeads(node: Node, base: string, h: Header) returns (path: seq<string>, obj: Obj)
    requires base != "" && h in Archive(node, base)
    ensures StandsFor(node, base, path, obj, h)
    decreases node
  {
    match node
    case File(data, mode) => path, obj := [], FileObj(mode, data);
    case Dir(mode, entries) =>
      if h == Header(base + "/", mode, DirEntry) {
        path, obj := [], DirObj(mode);
      } else {
        assert h in ArchiveAll(entries, base);
        var i := EntryHolding(entries, base, h);
        var rest;
        rest, obj := MemberLeads(entries[i].node, base + "/" + entries[i].name, h);
        path := [entries[i].name] + rest;
        assert path[1..] == rest;
        assert LeadsInto(entries, i, path, obj);
        assert Child(base, entries[i].name) == base + "/" + entries[i].name;
      }
  }

  lemma {:induction false} EntryHolding(entries: seq<Named>, name: string, h: Header) returns (i: nat)
    requires h in ArchiveAll(entries, name)
    ensures i < |entries| && h in Archive(entries[i].node, name + "/" + entries[i].name)
  {
    hide Archive;
    i := |entries| - 1;
    if h !in Archive(entries[i].node, name + "/" + entries[i].name) {
      i := EntryHolding(entries[..i], name, h);
    }
  }

  lemma {:induction false} HeldByEntry(entries: seq<Named>, name: string, i: nat, h: Header)
    requires i < |entries| && h in Archive(entries[i].node, name + "/" + entries[i].name)
    ensures h in ArchiveAll(entries, name)
    decreases |entries|
  {
    hide Archive;
    if i < |entries| - 1 {
      HeldByEntry(entries[..|entries| - 1], name, i, h);
    }
  }

  lemma {:induction false} LeadsToMember(node: Node, base: string, path: seq<string>, obj: Obj)
    requires base != "" && Leads(node, path, obj)
    ensures MemberFor(Path(base, path), obj) in Archive(node, base)
    decreases |path|
  {
    if path != [] {
      var i: nat :| LeadsInto(node.entries, i, path, obj);
      var child := base + "/" + path[0];
      assert Child(base, path[0]) == child;
      LeadsToMember(node.entries[i].node, child, path[1..], obj);
      HeldByEntry(node.entries, base, i, MemberFor(Path(base, path), obj));
    }
  }

  // ---------------------------------------------------------- the disk

  /** `a` is a directory on the way to `p`, going by its slashes. */
  predicate Strictly(a: string, p: string) {
    (a == "" && p != "") || a + "/" <= p
  }

  predicate OnTheWay(a: string, p: string) {
    a == p || Strictly(a, p)
  }

  lemma {:induction false} ParentIsNext(a: string, p: string)
    requires p != ""
    ensures Strictly(a, p) <==> OnTheWay(a, Parent(p))
    decreases |p|
  {
    var n := |p| - 1;
    var front := p[..n];
    assert p == front + [p[n]];
    if p[n] == '/' {
      assert a + "/" <= p && |a| == n ==> a == front;
      assert a == front ==> a + "/" == p;
      assert a + "/" <= front ==> a + "/" <= p;
      assert a + "/" <= p && |a| < n ==> a + "/" <= front;
    } else {
      assert a + "/" <= p ==> p[|a|] == '/';
      assert a + "/" <= p <==> a + "/" <= front;
      if front != "" {
        ParentIsNext(a, front);
      }
    }
  }

  /** What lies on the way to anything on the disk is a directory. */
  ghost predicate Rooted(disk: Disk) {
    IsDir(disk, "") && forall k :: k in disk && k != "" ==> IsDir(disk, Parent(k))
  }

  lemma {:induction false} WayIsThere(disk: Disk, p: string, a: string)
    requires Rooted(disk) && p in disk && Strictly(a, p)
    ensures IsDir(disk, a)
    decreases |p|
  {
    ParentIsNext(a, p);
    if a != Parent(p) {
      WayIsThere(disk, Parent(p), a);
    }
  }

  /** No file is in the way of a directory at `p`. */
  ghost predicate WayFree(disk: Disk, p: string) {
    forall a :: OnTheWay(a, p) && a in disk ==> disk[a].DirObj?
  }

  /** The directories missing on the way to `p`, and at it, have been made with `mode`, and nothing else changed. */
  ghost predicate WayMade(disk: Disk, made: Disk, p: string, mode: Perm) {
    && (forall k :: k in made <==> k in disk || OnTheWay(k, p))
    && (forall k :: k in made ==> made[k] == if k in disk then disk[k] else DirObj(mode))
  }

  lemma {:induction false} MkdirAllMakes(disk: Disk, p: string, mode: Perm)
    requires Rooted(disk)
    ensures MkdirAll(disk, p, mode).Some? <==> WayFree(disk, p)
    ensures MkdirAll(disk, p, mode).Some? ==>
      WayMade(disk, MkdirAll(disk, p, mode).value, p, mode) && Rooted(MkdirAll(disk, p, mode).value)
    decreases |p|
  {
    if p in disk {
      forall a | Strictly(a, p) ensures IsDir(disk, a) {
        WayIsThere(disk, p, a);
      }
    } else {
      MkdirAllMakes(disk, Parent(p), mode);
      forall a ensures Strictly(a, p) <==> OnTheWay(a, Parent(p)) {
        ParentIsNext(a, p);
      }
    }
  }

  // ------------------------------------------------- extracting one member

  /** A directory member makes what is missing of its directory and of those on the way with its mode,
      and leaves those that are there as they are; it fails exactly when a file is in the way. */
  lemma DirExtracted(o: Outcome, mode: Perm, base: string, p: string)
    requires o.ok && Rooted(o.disk) && p != "" && p[|p| - 1] != '/'
    ensures
      var o' := Extracted(o, Header(MemberName(base, p) + "/", mode, DirEntry), base);
      && (o'.ok <==> WayFree(o.disk, p)) && o'.total == o.total
      && (if o'.ok then WayMade(o.disk, o'.disk, p, mode) else o'.disk == o.disk)
  {
    hide Rel, Joined, MemberName, Parent, MkdirAll;
    RelOfMember(base, p);
    MkdirAllMakes(o.disk, p, mode);
  }

  /** A file in place of what is at `p`: directories missing on the way are made with mode 0755, a file that is
      there keeps its mode and gets the new contents, and nothing else changes. */
  ghost predicate FilePut(disk: Disk, now: Disk, p: string, mode: Perm, data: seq<Byte>) {
    && (forall k :: k in now <==> k in disk || OnTheWay(k, p))
    && (forall k :: k in now && k != p ==> now[k] == if k in disk then disk[k] else DirObj(0x1ED))
    && p in now && now[p] == FileObj(if p in disk then disk[p].mode else mode, data)
  }

  /** A regular file is put in its place and counted; that fails exactly when there is a directory in its
      place or a file on the way, and then nothing is written or counted. */
  lemma FileExtracted(o: Outcome, mode: Perm, data: seq<Byte>, base: string, p: string)
    requires o.ok && Rooted(o.disk) && p != "" && p[|p| - 1] != '/'
    ensures
      var o' := Extracted(o, Header(MemberName(base, p), mode, RegEntry(data)), base);
      && (o'.ok <==> WayFree(o.disk, Parent(p)) && !IsDir(o.disk, p))
      && (o'.ok ==> FilePut(o.disk, o'.disk, p, mode, data) && o'.total == o.total + |data|)
      && (!o'.ok ==> o'.disk == o.disk && o'.total == o.total)
  {
    hide Rel, Joined, MemberName, Parent, MkdirAll, WayFree, Rooted;
    RelOfMember(base, p);
    MkdirAllMakes(o.disk, Parent(p), 0x1ED);
    FileWritten(o.disk, p, mode, data);
  }

  lemma FileWritten(disk: Disk, p: string, mode: Perm, data: seq<Byte>)
    requires Rooted(disk) && p != ""
    ensures
      var made := MkdirAll(disk, Parent(p), 0x1ED);
      var now := WriteFile(if made.Some? then made.value else disk, p, mode, data);
      && (now.Some? <==> WayFree(disk, Parent(p)) && !IsDir(disk, p))
      && (now.Some? ==> FilePut(disk, now.value, p, mode, data))
      && (now.None? && made.Some? ==> made.value == disk)
  {
    MkdirAllMakes(disk, Parent(p), 0x1ED);
    forall a ensures Strictly(a, p) <==> OnTheWay(a, Parent(p)) {
      ParentIsNext(a, p);
    }
    if p in disk {
      forall a | Strictly(a, p) ensures IsDir(disk, a) {
        WayIsThere(disk, p, a);
      }
    }
    hide MkdirAll, Parent;
  }

  /** A member of any other kind ends the extraction as failed: what was extracted before it stays, and what
      follows is not extracted. */
  lemma OtherKindFails(o: Outcome, before: seq<Header>, mode: Perm, after: seq<Header>, base: string, p: string)
    requires p != "" && p[|p| - 1] != '/' && Extract(o, before, base).ok
    ensures
      Extract(o, before + [Header(MemberName(base, p), mode, OtherEntry)] + after, base)
      == Extract(o, before, base).(ok := false)
  {
    var h := Header(MemberName(base, p), mode, OtherEntry);
    var all := before + [h] + after;
    RelOfMember(base, p);
    hide Rel, MemberName, Extract;
    assert all[..|before|] == before;
    ExtractNext(o, all, |before|, base);
  }
}
