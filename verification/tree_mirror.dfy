/**
  Mirroring a directory tree through a tar archive: the walk that writes the archive
  and the loop that extracts it below another root.
*/
module TreeMirror {
  import opened Wrappers
  import opened Basics

  type Perm = m: int | 0 <= m < 0x200 witness 0

  datatype Node = File(data: seq<Byte>, mode: Perm) | Dir(mode: Perm, entries: seq<Named>) | Link

  datatype Named = Named(name: string, node: Node)

  /** An archive member. */
  datatype Header = Header(name: string, mode: Perm, kind: Kind)

  datatype Kind = DirEntry | RegEntry(data: seq<Byte>) | LinkEntry | OtherEntry

  predicate IsName(n: string) {
    n != "" && n != "." && n != ".." && '/' !in n
  }

  predicate WellFormed(node: Node) {
    node.Dir? ==> WellFormedAll(node.entries)
  }

  predicate WellFormedAll(entries: seq<Named>) {
    && (forall i :: 0 <= i < |entries| ==> IsName(entries[i].name) && WellFormed(entries[i].node))
    && (forall i, j :: 0 <= i < j < |entries| ==> entries[i].name != entries[j].name)
  }

  // --------------------------------------------------------------- writing

  function Archive(node: Node, name: string): seq<Header> {
    match node
    case Link => []
    case File(data, mode) => [Header(name, mode, RegEntry(data))]
    case Dir(mode, entries) => [Header(name + "/", mode, DirEntry)] + ArchiveAll(entries, name)
  }

  function ArchiveAll(entries: seq<Named>, name: string): seq<Header> {
    if entries == [] then []
    else
      var n := |entries| - 1;
      ArchiveAll(entries[..n], name) + Archive(entries[n].node, name + "/" + entries[n].name)
  }

  /** The bytes in the regular files of a tree. */
  function Size(node: Node): nat {
    match node
    case Link => 0
    case File(data, _) => |data|
    case Dir(_, entries) => SizeAll(entries)
  }

  function SizeAll(entries: seq<Named>): nat {
    if entries == [] then 0 else SizeAll(entries[..|entries| - 1]) + Size(entries[|entries| - 1].node)
  }

  /** The file system and the stream under a walk, by entry name: what can be opened and given a header,
      which directories can be read, which entries can be looked at, and how many bytes of a file get across. */
  datatype Access = Access(
    opens: string -> bool, lists: string -> bool, stats: string -> bool, copies: string -> nat)

  predicate Readable(node: Node, name: string, access: Access)
    decreases node, 0
  {
    match node
    case Link => true
    case File(data, _) => access.opens(name) && |data| <= access.copies(name)
    case Dir(_, entries) =>
      && access.opens(name) && access.lists(name)
      && forall i :: 0 <= i < |entries| ==> ReadableEntry(entries, i, name, access)
  }

  predicate ReadableEntry(entries: seq<Named>, i: nat, name: string, access: Access)
    requires i < |entries|
    decreases entries[i].node, 1
  {
    var child := name + "/" + entries[i].name;
    access.stats(child) && Readable(entries[i].node, child, access)
  }

  class Writer {
    var headers: seq<Header>
    var written: nat
    const access: Access

    constructor (access: Access)
      ensures headers == [] && written == 0 && this.access == access
    {
      headers, written, this.access := [], 0, access;
    }

    /** One visit of the walk, and then the visits below it.  A file that cannot be opened, a header
        that cannot be written, a copy that breaks off or a directory that cannot be read ends it. */
    method Walk(node: Node, name: string) returns (ok: bool)
      modifies this
      ensures ok <==> Readable(node, name, access)
      ensures ok ==> headers == old(headers) + Archive(node, name) && written == old(written) + Size(node)
      ensures old(headers) <= headers && old(written) <= written
      ensures !ok ==> BrokenOff(Archive(node, name), headers[|old(headers)|..], written - old(written))
      decreases node, 1
    {
      if node.Link? {
        return true;
      }
      if !access.opens(name) {
        NothingWritten(Archive(node, name));
        assert headers[|headers|..] == [];
        return false;
      }
      if node.File? {
        ok := CopyFile(node.data, node.mode, name);
        return;
      }
      headers := headers + [Header(name + "/", node.mode, DirEntry)];
      if !access.lists(name) {
        DirOnly(node, name);
        assert headers[|old(headers)|..] == [Header(name + "/", node.mode, DirEntry)];
        return false;
      }
      ok := WalkEntries(node, name, old(headers), old(written));
    }

    /** The visits below a directory whose own entry has been written; `start` and `count` are from before it. */
    method WalkEntries(node: Node, name: string, ghost start: seq<Header>, ghost count: nat) returns (ok: bool)
      requires node.Dir? && headers == start + [Header(name + "/", node.mode, DirEntry)] && written == count
      requires access.opens(name) && access.lists(name)
      modifies this
      ensures ok <==> Readable(node, name, access)
      ensures ok ==> headers == start + Archive(node, name) && written == count + Size(node)
      ensures start <= headers && count <= written
      ensures !ok ==> BrokenOff(Archive(node, name), headers[|start|..], written - count)
      decreases node, 0
    {
      hide BrokenOff, Bytes, SizeAll, ArchiveAll;
      var entries := node.entries;
      ghost var front := [Header(name + "/", node.mode, DirEntry)];
      NoEntries(entries, name, front);
      for i := 0 to |entries|
        invariant front == [Header(name + "/", node.mode, DirEntry)] + ArchiveAll(entries[..i], name)
        invariant headers == start + front && written == count + SizeAll(entries[..i])
        invariant forall k :: 0 <= k < i ==> ReadableEntry(entries, k, name, access)
      {
        FrontOfArchive(node, name, i);
        assert headers[|start|..] == front;
        if !access.stats(name + "/" + entries[i].name) {
          assert !ReadableEntry(entries, i, name, access);
          BrokenBetween(front, Archive(entries[i].node, name + "/" + entries[i].name), Archive(node, name));
          return false;
        }
        OneMoreEntry(entries, i, name);
        var visited := Walk(entries[i].node, name + "/" + entries[i].name);
        if !visited {
          assert !ReadableEntry(entries, i, name, access);
          ghost var part := headers[|start + front|..];
          assert headers[|start|..] == front + part;
          BrokenBelow(front, Archive(entries[i].node, name + "/" + entries[i].name), Archive(node, name), part,
                      written - count - SizeAll(entries[..i]));
          return false;
        }
        front := front + Archive(entries[i].node, name + "/" + entries[i].name);
      }
      assert entries[..|entries|] == entries;
      ok := true;
    }

    /** The header and the contents of one file; a copy may break off anywhere. */
    method CopyFile(data: seq<Byte>, mode: Perm, name: string) returns (ok: bool)
      modifies this
      ensures ok <==> |data| <= access.copies(name)
      ensures ok ==> headers == old(headers) + [Header(name, mode, RegEntry(data))] && written == old(written) + |data|
      ensures old(headers) <= headers && old(written) <= written
      ensures !ok ==>
        BrokenOff([Header(name, mode, RegEntry(data))], headers[|old(headers)|..], written - old(written))
    {
      var copied := access.copies(name);
      if copied < |data| {
        written := written + copied;
        assert headers[|headers|..] == [];
        assert BrokenAt([Header(name, mode, RegEntry(data))], [], copied, 0);
        return false;
      }
      headers := headers + [Header(name, mode, RegEntry(data))];
      written := written + |data|;
      ok := true;
    }
  }

  // ----------------------------------------------------- a walk broken off

  function MemberSize(h: Header): nat {
    if h.kind.RegEntry? then |h.kind.data| else 0
  }

  function Bytes(headers: seq<Header>): nat {
    if headers == [] then 0 else Bytes(headers[..|headers| - 1]) + MemberSize(headers[|headers| - 1])
  }

  /** The first `n` members have been written whole, and of the next at most its contents. */
  ghost predicate BrokenAt(all: seq<Header>, done: seq<Header>, count: int, n: nat) {
    && n <= |all| && done == all[..n]
    && Bytes(done) <= count <= Bytes(done) + (if n < |all| then MemberSize(all[n]) else 0)
  }

  ghost predicate BrokenOff(all: seq<Header>, done: seq<Header>, count: int) {
    exists n :: BrokenAt(all, done, count, n)
  }

  lemma {:induction false} BytesConcat(a: seq<Header>, b: seq<Header>)
    ensures Bytes(a + b) == Bytes(a) + Bytes(b)
  {
    if b == [] {
      assert a + b == a;
    } else {
      BytesConcat(a, b[..|b| - 1]);
      assert (a + b)[..|a + b| - 1] == a + b[..|b| - 1];
    }
  }

  /** An archive holds the bytes of the tree's regular files. */
  lemma {:induction false} ArchiveBytes(node: Node, name: string)
    ensures Bytes(Archive(node, name)) == Size(node)
    decreases node
  {
    match node
    case Link =>
    case File(data, mode) =>
      assert [Header(name, mode, RegEntry(data))][..0] == [];
    case Dir(mode, entries) =>
      ArchiveAllBytes(entries, name);
      var dir := [Header(name + "/", mode, DirEntry)];
      assert dir[..0] == [];
      BytesConcat(dir, ArchiveAll(entries, name));
  }

  lemma {:induction false} ArchiveAllBytes(entries: seq<Named>, name: string)
    ensures Bytes(ArchiveAll(entries, name)) == SizeAll(entries)
    decreases entries
  {
    if entries != [] {
      var n := |entries| - 1;
      ArchiveAllBytes(entries[..n], name);
      ArchiveBytes(entries[n].node, name + "/" + entries[n].name);
      BytesConcat(ArchiveAll(entries[..n], name), Archive(entries[n].node, name + "/" + entries[n].name));
    }
  }

  lemma NothingWritten(all: seq<Header>)
    ensures BrokenOff(all, [], 0)
  {
    assert BrokenAt(all, [], 0, 0);
  }

  lemma DirOnly(node: Node, name: string)
    requires node.Dir?
    ensures BrokenOff(Archive(node, name), [Header(name + "/", node.mode, DirEntry)], 0)
  {
    var dir := [Header(name + "/", node.mode, DirEntry)];
    assert dir[..0] == [] && Bytes(dir) == 0;
    assert Archive(node, name)[..1] == dir;
    assert BrokenAt(Archive(node, name), dir, 0, 1);
  }

  /** The directory's own entry and its first `i` children come first in its archive, and then child `i`. */
  lemma {:induction false} FrontOfArchive(node: Node, name: string, i: nat)
    requires node.Dir? && i < |node.entries|
    ensures
      var front := [Header(name + "/", node.mode, DirEntry)] + ArchiveAll(node.entries[..i], name);
      && Bytes(front) == SizeAll(node.entries[..i])
      && front + Archive(node.entries[i].node, name + "/" + node.entries[i].name) <= Archive(node, name)
  {
    var dir := [Header(name + "/", node.mode, DirEntry)];
    assert dir[..0] == [];
    ArchiveAllBytes(node.entries[..i], name);
    BytesConcat(dir, ArchiveAll(node.entries[..i], name));
    ChildrenInOrder(node.entries, i, name);
  }

  lemma {:induction false} ChildrenInOrder(entries: seq<Named>, i: nat, name: string)
    requires i < |entries|
    ensures ArchiveAll(entries[..i], name) + Archive(entries[i].node, name + "/" + entries[i].name) <= ArchiveAll(entries, name)
    decreases |entries|
  {
    var n := |entries| - 1;
    if i < n {
      ChildrenInOrder(entries[..n], i, name);
      assert entries[..n][..i] == entries[..i];
    }
  }

  lemma NoEntries(entries: seq<Named>, name: string, dir: seq<Header>)
    ensures dir + ArchiveAll(entries[..0], name) == dir && SizeAll(entries[..0]) == 0
  {
    assert entries[..0] == [];
  }

  lemma OneMoreEntry(entries: seq<Named>, i: nat, name: string)
    requires i < |entries|
    ensures ArchiveAll(entries[..i + 1], name)
         == ArchiveAll(entries[..i], name) + Archive(entries[i].node, name + "/" + entries[i].name)
    ensures SizeAll(entries[..i + 1]) == SizeAll(entries[..i]) + Size(entries[i].node)
  {
    assert entries[..i + 1][..i] == entries[..i];
  }

  lemma BrokenBetween(front: seq<Header>, next: seq<Header>, all: seq<Header>)
    requires front + next <= all
    ensures BrokenOff(all, front, Bytes(front))
  {
    assert all[..|front|] == (front + next)[..|front|] == front;
    assert BrokenAt(all, front, Bytes(front), |front|);
  }

  lemma BrokenBelow(front: seq<Header>, part: seq<Header>, all: seq<Header>, done: seq<Header>, count: int)
    requires front + part <= all && BrokenOff(part, done, count)
    ensures BrokenOff(all, front + done, Bytes(front) + count)
  {
    var n: nat :| BrokenAt(part, done, count, n);
    BytesConcat(front, done);
    assert all[..|front| + n] == (front + part)[..|front| + n] == front + done;
    assert n < |part| ==> all[|front| + n] == (front + part)[|front| + n] == part[n];
    assert BrokenAt(all, front + done, Bytes(front) + count, |front| + n);
  }

  // ------------------------------------------------------------- the disk

  datatype Obj = DirObj(mode: Perm) | FileObj(mode: Perm, data: seq<Byte>)

  /** What lies below the destination, by slash-separated path; the destination itself is "". */
  type Disk = map<string, Obj>

  function Parent(path: string): (up: string)
    ensures path != "" ==> |up| < |path|
  {
    if path == "" then ""
    else if path[|path| - 1] == '/' then path[..|path| - 1]
    else Parent(path[..|path| - 1])
  }

  function MkdirAll(disk: Disk, path: string, mode: Perm): Option<Disk>
    decreases |path|
  {
    if path in disk then if disk[path].DirObj? then Some(disk) else None
    else if path == "" then Some(disk[path := DirObj(mode)])
    else
      match MkdirAll(disk, Parent(path), mode)
      case None => None
      case Some(up) => Some(up[path := DirObj(mode)])
  }

  /** Opening for writing truncates an existing file and keeps its mode. */
  function WriteFile(disk: Disk, path: string, mode: Perm, data: seq<Byte>): Option<Disk> {
    if path in disk then
      if disk[path].FileObj? then Some(disk[path := FileObj(disk[path].mode, data)]) else None
    else if Parent(path) in disk && disk[Parent(path)].DirObj? then Some(disk[path := FileObj(mode, data)])
    else None
  }

  // ------------------------------------------------------------ extracting

  function Rel(name: string, base: string): string {
    TrimPrefix(TrimPrefix(name, base), "/")
  }

  /** Joining a path to the destination drops its final slash. */
  function Joined(rel: string): string {
    if rel != "" && rel[|rel| - 1] == '/' then rel[..|rel| - 1] else rel
  }

  datatype Outcome = Outcome(disk: Disk, total: nat, ok: bool)

  function Extracted(o: Outcome, h: Header, base: string): Outcome {
    var rel := Rel(h.name, base);
    if rel == "" then o
    else
      match h.kind
      case DirEntry =>
        (match MkdirAll(o.disk, Joined(rel), h.mode)
         case Some(disk) => o.(disk := disk)
         case None => o.(ok := false))
      case RegEntry(data) =>
        var made := MkdirAll(o.disk, Parent(Joined(rel)), 0x1ED);
        var disk := if made.Some? then made.value else o.disk;
        (match WriteFile(disk, Joined(rel), h.mode, data)
         case Some(disk') => Outcome(disk', o.total + |data|, o.ok)
         case None => Outcome(disk, o.total, false))
      case LinkEntry => o
      case OtherEntry => o.(ok := false)
  }

  /** The members in order, up to the first that fails. */
  function Extract(o: Outcome, headers: seq<Header>, base: string): Outcome {
    if headers == [] then o
    else
      var before := Extract(o, headers[..|headers| - 1], base);
      if before.ok then Extracted(before, headers[|headers| - 1], base) else before
  }

  /** The destination made a directory, and then the members extracted below it. */
  function ExtractBelow(start: Disk, headers: seq<Header>, base: string): Outcome {
    var root := MkdirAll(start, "", 0x1ED);
    if root.None? then Outcome(start, 0, false) else Extract(Outcome(root.value, 0, true), headers, base)
  }

  method ExtractAll(start: Disk, headers: seq<Header>, base: string) returns (disk: Disk, total: nat, ok: bool)
    ensures Outcome(disk, total, ok) == ExtractBelow(start, headers, base)
  {
    hide MkdirAll, WriteFile, Parent, Joined, Extract, TrimPrefix;
    var root := MkdirAll(start, "", 0x1ED);
    if root.None? {
      return start, 0, false;
    }
    disk, total, ok := root.value, 0, true;
    ghost var first := Outcome(disk, 0, true);
    ExtractNone(first, headers, base);
    for i := 0 to |headers|
      invariant ok
      invariant Outcome(disk, total, true) == Extract(first, headers[..i], base)
    {
      var hdr := headers[i];
      ExtractNext(first, headers, i, base);
      var rel := TrimPrefix(hdr.name, base);
      rel := TrimPrefix(rel, "/");
      if rel == "" {
        continue;
      }
      var out := Joined(rel);
      match hdr.kind {
        case DirEntry =>
          var made := MkdirAll(disk, out, hdr.mode);
          if made.None? {
            ok := false;
            return;
          }
          disk := made.value;
        case RegEntry(data) =>
          var made := MkdirAll(disk, Parent(out), 0x1ED);
          if made.Some? {
            disk := made.value;
          }
          var file := WriteFile(disk, out, hdr.mode, data);
          if file.None? {
            ok := false;
            return;
          }
          disk, total := file.value, total + |data|;
        case LinkEntry =>
          continue;
        case OtherEntry =>
          ok := false;
          return;
      }
    }
    assert headers[..|headers|] == headers;
  }

  lemma ExtractNone(o: Outcome, headers: seq<Header>, base: string)
    ensures Extract(o, headers[..0], base) == o
  {
  }

  /** One member more; one that fails is the last. */
  lemma ExtractNext(o: Outcome, headers: seq<Header>, i: nat, base: string)
    requires i < |headers| && Extract(o, headers[..i], base).ok
    ensures
      var next := Extracted(Extract(o, headers[..i], base), headers[i], base);
      Extract(o, headers[..i + 1], base) == next && (!next.ok ==> Extract(o, headers, base) == next)
  {
    hide Extracted;
    assert headers[..i + 1][..i] == headers[..i];
    FailedStays(o, headers, i + 1, base);
  }

  lemma {:induction false} FailedStays(o: Outcome, headers: seq<Header>, n: nat, base: string)
    requires n <= |headers|
    ensures !Extract(o, headers[..n], base).ok ==> Extract(o, headers, base) == Extract(o, headers[..n], base)
    decreases |headers|
  {
    if n == |headers| {
      assert headers[..n] == headers;
    } else {
      FailedStays(o, headers[..|headers| - 1], n, base);
      assert headers[..|headers| - 1][..n] == headers[..n];
    }
  }

  lemma {:induction false} ExtractConcat(o: Outcome, a: seq<Header>, b: seq<Header>, base: string)
    ensures Extract(o, a + b, base) == Extract(Extract(o, a, base), b, base)
  {
    hide Extracted;
    if b == [] {
      assert a + b == a;
    } else {
      ExtractConcat(o, a, b[..|b| - 1], base);
      assert (a + b)[..|a + b| - 1] == a + b[..|b| - 1];
    }
  }

  function WithoutLinks(headers: seq<Header>): seq<Header> {
    if headers == [] then []
    else
      var n := |headers| - 1;
      WithoutLinks(headers[..n]) + (if headers[n].kind.LinkEntry? then [] else [headers[n]])
  }

  /** Links change nothing, wherever they stand. */
  lemma {:induction false} LinksSkipped(o: Outcome, headers: seq<Header>, base: string)
    ensures Extract(o, headers, base) == Extract(o, WithoutLinks(headers), base)
  {
    if headers != [] {
      var n := |headers| - 1;
      LinksSkipped(o, headers[..n], base);
      var front := WithoutLinks(headers[..n]);
      if headers[n].kind.LinkEntry? {
        assert front + [] == front;
        assert Extracted(Extract(o, headers[..n], base), headers[n], base) == Extract(o, headers[..n], base);
      } else {
        hide Extracted;
        assert (front + [headers[n]])[..|front|] == front;
      }
    }
  }

  // ---------------------------------------------------------- what it means

  function Child(p: string, n: string): string {
    if p == "" then n else p + "/" + n
  }

  /** The tree, without its links, as what it puts on a disk at `p` and below. */
  function Image(node: Node, p: string): Disk {
    match node
    case Link => map[]
    case File(data, mode) => map[p := FileObj(mode, data)]
    case Dir(mode, entries) => map[p := DirObj(mode)] + ImageAll(entries, p)
  }

  function ImageAll(entries: seq<Named>, p: string): Disk {
    if entries == [] then map[]
    else
      var n := |entries| - 1;
      ImageAll(entries[..n], p) + Image(entries[n].node, Child(p, entries[n].name))
  }

  predicate Under(k: string, p: string) {
    k == p || p + "/" <= k
  }

  predicate Clear(disk: Disk, p: string) {
    forall k :: k in disk ==> !Under(k, p)
  }

  lemma UnderChild(k: string, p: string, n: string)
    requires p != "" && Under(k, Child(p, n))
    ensures Under(k, p) && k != p
  {
    assert Child(p, n) == p + "/" + n;
    assert k[..|p| + 1] == (p + "/" + n)[..|p| + 1] == p + "/";
  }

  /** Nothing is under two siblings. */
  lemma SiblingsApart(k: string, p: string, m: string, n: string)
    requires IsName(m) && IsName(n) && Under(k, Child(p, m)) && Under(k, Child(p, n))
    ensures m == n
  {
    AfterPrefix(k, p, m);
    AfterPrefix(k, p, n);
    var skip := if p == "" then 0 else |p| + 1;
    HeadIs(k[skip..], m);
    HeadIs(k[skip..], n);
  }

  lemma AfterPrefix(k: string, p: string, n: string)
    requires Under(k, Child(p, n))
    ensures var skip := if p == "" then 0 else |p| + 1;
      skip <= |k| && (k[skip..] == n || n + "/" <= k[skip..])
  {
    var skip := if p == "" then 0 else |p| + 1;
    assert Child(p, n)[skip..] == n;
    if k != Child(p, n) {
      assert (Child(p, n) + "/")[skip..] == n + "/";
    }
  }

  /** Up to the first slash. */
  function Head(k: string): string {
    if k == "" || k[0] == '/' then "" else [k[0]] + Head(k[1..])
  }

  lemma {:induction false} HeadIs(k: string, n: string)
    requires '/' !in n && (k == n || n + "/" <= k)
    ensures Head(k) == n
  {
    if n == "" {
      assert k == "" || k[0] == '/';
    } else {
      assert n[0] in n && k[0] == n[0];
      assert n + "/" <= k ==> n[1..] + "/" <= k[1..] by {
        assert (n + "/")[1..] == n[1..] + "/";
      }
      HeadIs(k[1..], n[1..]);
    }
  }

  predicate UnderEntry(k: string, entries: seq<Named>, p: string, i: nat) {
    i < |entries| && Under(k, Child(p, entries[i].name))
  }

  lemma {:induction false} ImageUnder(node: Node, p: string)
    requires p != "" && WellFormed(node)
    ensures forall k :: k in Image(node, p) ==> Under(k, p)
    decreases node
  {
    if node.Dir? {
      ImageAllUnder(node.entries, p);
      forall k | k in ImageAll(node.entries, p)
        ensures Under(k, p)
      {
        var i: nat :| UnderEntry(k, node.entries, p, i);
        UnderChild(k, p, node.entries[i].name);
      }
    }
  }

  lemma {:induction false} ImageAllUnder(entries: seq<Named>, p: string)
    requires WellFormedAll(entries)
    ensures forall k :: k in ImageAll(entries, p) ==> exists i :: UnderEntry(k, entries, p, i)
    decreases entries
  {
    if entries != [] {
      var n := |entries| - 1;
      ImageAllUnder(entries[..n], p);
      ImageUnder(entries[n].node, Child(p, entries[n].name));
      assert ImageAll(entries, p) == ImageAll(entries[..n], p) + Image(entries[n].node, Child(p, entries[n].name));
      forall k | k in ImageAll(entries, p)
        ensures exists i :: UnderEntry(k, entries, p, i)
      {
        if k in Image(entries[n].node, Child(p, entries[n].name)) {
          assert UnderEntry(k, entries, p, n);
        } else {
          var i: nat :| UnderEntry(k, entries[..n], p, i);
          assert UnderEntry(k, entries, p, i);
        }
      }
    }
  }

  // ------------------------------------------------------------ round trip

  lemma {:induction false} ParentAppend(p: string, n: string)
    requires '/' !in n
    ensures Parent(p + "/" + n) == p && Parent(n) == ""
  {
    if n == "" {
      assert p + "/" + n == p + "/";
    } else {
      var l := |n| - 1;
      ParentAppend(p, n[..l]);
      assert n[l] in n;
      assert (p + "/" + n)[..|p + "/" + n| - 1] == p + "/" + n[..l];
    }
  }

  lemma ParentOfChild(p: string, n: string)
    requires IsName(n)
    ensures Parent(Child(p, n)) == p && Child(p, n) != ""
    ensures Child(p, n)[|Child(p, n)| - 1] != '/'
  {
    ParentAppend(p, n);
    assert n[|n| - 1] in n;
  }

  /** The name under which the archive carries what belongs at `p`. */
  function MemberName(base: string, p: string): string {
    if p == "" then base else base + "/" + p
  }

  lemma RelOfMember(base: string, p: string)
    requires p != "" && p[|p| - 1] != '/'
    ensures Rel(MemberName(base, p), base) == p && Joined(p) == p
    ensures Rel(MemberName(base, p) + "/", base) == p + "/" && Joined(p + "/") == p
  {
    assert (base + "/" + p)[|base|..] == "/" + p && ("/" + p)[1..] == p;
    assert (base + "/" + p + "/")[|base|..] == "/" + (p + "/") && ("/" + (p + "/"))[1..] == p + "/";
  }

  predicate IsDir(disk: Disk, p: string) {
    p in disk && disk[p].DirObj?
  }

  lemma FileMirrored(o: Outcome, data: seq<Byte>, mode: Perm, base: string, p: string)
    requires o.ok && p != "" && p[|p| - 1] != '/'
    requires IsDir(o.disk, Parent(p)) && p !in o.disk
    ensures Extracted(o, Header(MemberName(base, p), mode, RegEntry(data)), base)
         == Outcome(o.disk[p := FileObj(mode, data)], o.total + |data|, true)
  {
    hide MkdirAll, Parent, Rel, Joined, MemberName;
    RelOfMember(base, p);
    DirIsThere(o.disk, Parent(p), 0x1ED);
  }

  lemma DirIsThere(disk: Disk, p: string, mode: Perm)
    requires IsDir(disk, p)
    ensures MkdirAll(disk, p, mode) == Some(disk)
  {
  }

  lemma DirMirrored(o: Outcome, mode: Perm, base: string, p: string)
    requires o.ok && p != "" && p[|p| - 1] != '/'
    requires IsDir(o.disk, Parent(p)) && p !in o.disk
    ensures Extracted(o, Header(MemberName(base, p) + "/", mode, DirEntry), base)
         == o.(disk := o.disk[p := DirObj(mode)])
  {
    hide Parent, Rel, Joined, MemberName;
    RelOfMember(base, p);
    DirIsThere(o.disk, Parent(p), mode);
  }

  lemma ExtractOne(o: Outcome, h: Header, base: string)
    requires o.ok
    ensures Extract(o, [h], base) == Extracted(o, h, base)
  {
    assert [h][..0] == [];
  }

  predicate ClearAll(disk: Disk, entries: seq<Named>, p: string) {
    forall i :: 0 <= i < |entries| ==> Clear(disk, Child(p, entries[i].name))
  }

  /** A new directory leaves the places of its entries clear. */
  lemma ClearBelow(disk: Disk, entries: seq<Named>, p: string, obj: Obj)
    requires p != "" && Clear(disk, p)
    ensures ClearAll(disk + map[p := obj], entries, p)
  {
    forall k, i | 0 <= i < |entries| && Under(k, Child(p, entries[i].name))
      ensures k !in disk + map[p := obj]
    {
      UnderChild(k, p, entries[i].name);
    }
  }

  /** What the earlier entries put on the disk leaves the last one's place clear. */
  lemma ClearBeside(disk: Disk, entries: seq<Named>, n: nat, p: string)
    requires WellFormedAll(entries) && n < |entries| && Clear(disk, Child(p, entries[n].name))
    ensures Clear(disk + ImageAll(entries[..n], p), Child(p, entries[n].name))
  {
    ImageAllUnder(entries[..n], p);
    forall k | k in ImageAll(entries[..n], p)
      ensures !Under(k, Child(p, entries[n].name))
    {
      if Under(k, Child(p, entries[n].name)) {
        var i: nat :| UnderEntry(k, entries[..n], p, i);
        SiblingsApart(k, p, entries[i].name, entries[n].name);
      }
    }
  }

  lemma ImageAllBelow(entries: seq<Named>, p: string)
    requires WellFormedAll(entries)
    ensures p !in ImageAll(entries, p)
  {
    ImageAllUnder(entries, p);
    forall k | k in ImageAll(entries, p)
      ensures |k| > |p|
    {
      var i: nat :| UnderEntry(k, entries, p, i);
    }
  }

  /** Extracting `headers` over `o` succeeds, adds `image` to the disk and counts `size` bytes. */
  ghost predicate Adds(o: Outcome, headers: seq<Header>, base: string, image: Disk, size: nat) {
    Extract(o, headers, base) == Outcome(o.disk + image, o.total + size, true)
  }

  lemma AddsBoth(o: Outcome, a: seq<Header>, b: seq<Header>, base: string, x: Disk, m: nat, y: Disk, n: nat)
    requires Adds(o, a, base, x, m)
    requires Adds(Outcome(o.disk + x, o.total + m, true), b, base, y, n)
    ensures Adds(o, a + b, base, x + y, m + n)
  {
    hide Extract, Image, ImageAll;
    ExtractConcat(o, a, b, base);
    assert o.disk + x + y == o.disk + (x + y);
  }

  lemma AddsNothing(o: Outcome, base: string)
    requires o.ok
    ensures Adds(o, [], base, map[], 0)
  {
    assert o.disk + map[] == o.disk;
  }

  lemma AddsFile(o: Outcome, data: seq<Byte>, mode: Perm, base: string, p: string)
    requires o.ok && p != "" && p[|p| - 1] != '/'
    requires IsDir(o.disk, Parent(p)) && p !in o.disk
    ensures Adds(o, [Header(MemberName(base, p), mode, RegEntry(data))], base, map[p := FileObj(mode, data)], |data|)
  {
    hide Extract, Extracted, MkdirAll, WriteFile, Parent;
    ExtractOne(o, Header(MemberName(base, p), mode, RegEntry(data)), base);
    FileMirrored(o, data, mode, base, p);
    assert o.disk[p := FileObj(mode, data)] == o.disk + map[p := FileObj(mode, data)];
  }

  lemma AddsDir(o: Outcome, mode: Perm, base: string, p: string)
    requires o.ok && p != "" && p[|p| - 1] != '/'
    requires IsDir(o.disk, Parent(p)) && p !in o.disk
    ensures Adds(o, [Header(MemberName(base, p) + "/", mode, DirEntry)], base, map[p := DirObj(mode)], 0)
  {
    hide Extract, Extracted, MkdirAll, Parent;
    ExtractOne(o, Header(MemberName(base, p) + "/", mode, DirEntry), base);
    DirMirrored(o, mode, base, p);
    assert o.disk[p := DirObj(mode)] == o.disk + map[p := DirObj(mode)];
  }

  lemma {:induction false} NodeMirrored(o: Outcome, node: Node, base: string, p: string)
    requires o.ok && WellFormed(node)
    requires p != "" && p[|p| - 1] != '/'
    requires IsDir(o.disk, Parent(p)) && Clear(o.disk, p)
    ensures Adds(o, Archive(node, MemberName(base, p)), base, Image(node, p), Size(node))
    decreases node
  {
    hide Extract, Adds;
    assert Under(p, p);
    match node {
      case Link =>
        AddsNothing(o, base);
      case File(data, mode) =>
        AddsFile(o, data, mode, base, p);
      case Dir(mode, entries) =>
        var made := Outcome(o.disk + map[p := DirObj(mode)], o.total, true);
        AddsDir(o, mode, base, p);
        ClearBelow(o.disk, entries, p, DirObj(mode));
        EntriesMirrored(made, entries, base, p);
        AddsBoth(o, [Header(MemberName(base, p) + "/", mode, DirEntry)], ArchiveAll(entries, MemberName(base, p)), base,
                 map[p := DirObj(mode)], 0, ImageAll(entries, p), SizeAll(entries));
    }
  }

  lemma {:induction false} EntriesMirrored(o: Outcome, entries: seq<Named>, base: string, p: string)
    requires o.ok && WellFormedAll(entries)
    requires IsDir(o.disk, p) && ClearAll(o.disk, entries, p)
    ensures Adds(o, ArchiveAll(entries, MemberName(base, p)), base, ImageAll(entries, p), SizeAll(entries))
    decreases entries
  {
    hide Extract, Adds, Image, Archive;
    if entries == [] {
      AddsNothing(o, base);
    } else {
      var n := |entries| - 1;
      EntriesMirrored(o, entries[..n], base, p);
      LastMirrored(Outcome(o.disk + ImageAll(entries[..n], p), o.total + SizeAll(entries[..n]), true), o.disk, entries, base, p);
      AddsLast(o, entries, base, p);
    }
  }

  lemma AddsLast(o: Outcome, entries: seq<Named>, base: string, p: string)
    requires entries != []
    requires var front := entries[..|entries| - 1];
      Adds(o, ArchiveAll(front, MemberName(base, p)), base, ImageAll(front, p), SizeAll(front))
    requires var front, last := entries[..|entries| - 1], entries[|entries| - 1];
      Adds(Outcome(o.disk + ImageAll(front, p), o.total + SizeAll(front), true),
           Archive(last.node, MemberName(base, p) + "/" + last.name), base,
           Image(last.node, Child(p, last.name)), Size(last.node))
    ensures Adds(o, ArchiveAll(entries, MemberName(base, p)), base, ImageAll(entries, p), SizeAll(entries))
  {
    hide Adds, Archive, Image, Size, MemberName, Child;
    var n := |entries| - 1;
    AddsBoth(o, ArchiveAll(entries[..n], MemberName(base, p)),
             Archive(entries[n].node, MemberName(base, p) + "/" + entries[n].name), base,
             ImageAll(entries[..n], p), SizeAll(entries[..n]),
             Image(entries[n].node, Child(p, entries[n].name)), Size(entries[n].node));
  }

  /** The last entry goes beside the earlier ones. */
  lemma {:induction false} LastMirrored(o: Outcome, disk: Disk, entries: seq<Named>, base: string, p: string)
    requires entries != [] && WellFormedAll(entries)
    requires IsDir(disk, p) && ClearAll(disk, entries, p)
    requires o.ok && o.disk == disk + ImageAll(entries[..|entries| - 1], p)
    ensures var last := entries[|entries| - 1];
      Adds(o, Archive(last.node, MemberName(base, p) + "/" + last.name), base, Image(last.node, Child(p, last.name)), Size(last.node))
    decreases entries, 0
  {
    hide Adds, Image, Archive, Size, Clear, Under;
    var n := |entries| - 1;
    var c := Child(p, entries[n].name);
    ClearBeside(disk, entries, n, p);
    ParentOfChild(p, entries[n].name);
    ImageAllBelow(entries[..n], p);
    assert MemberName(base, p) + "/" + entries[n].name == MemberName(base, c);
    NodeMirrored(o, entries[n].node, base, c);
  }

  /** Archiving a directory and extracting it where nothing is, whatever links the archive has besides,
      gives the same tree without its links, and both byte counts are the size of its regular files. */
  lemma RoundTrip(mode: Perm, entries: seq<Named>, base: string, headers: seq<Header>)
    requires WellFormedAll(entries) && WithoutLinks(headers) == Archive(Dir(mode, entries), base)
    ensures ExtractBelow(map[], headers, base)
         == Outcome(map["" := DirObj(0x1ED)] + ImageAll(entries, ""), SizeAll(entries), true)
  {
    LinksSkipped(Outcome(map["" := DirObj(0x1ED)], 0, true), headers, base);
    var o := Outcome(map["" := DirObj(0x1ED)], 0, true);
    var h := Header(base + "/", mode, DirEntry);
    assert (base + "/")[|base|..] == "/";
    assert [h][..0] == [] && Extract(o, [h], base) == o;
    ExtractConcat(o, [h], ArchiveAll(entries, base), base);
    EntriesMirrored(o, entries, base, "");
  }

  // ----------------------------------------------- the image is the tree

  /** Following `path` down from `node`, through no link, leads to `obj`. */
  ghost predicate Leads(node: Node, path: seq<string>, obj: Obj)
    decreases |path|
  {
    match node
    case Link => false
    case File(data, mode) => path == [] && obj == FileObj(mode, data)
    case Dir(mode, entries) =>
      if path == [] then obj == DirObj(mode)
      else exists i :: LeadsInto(entries, i, path, obj)
  }

  ghost predicate LeadsInto(entries: seq<Named>, i: nat, path: seq<string>, obj: Obj)
    requires path != []
    decreases |path|, 0
  {
    i < |entries| && entries[i].name == path[0] && Leads(entries[i].node, path[1..], obj)
  }

  lemma IntoLeads(mode: Perm, entries: seq<Named>, i: nat, path: seq<string>, obj: Obj)
    requires path != [] && LeadsInto(entries, i, path, obj)
    ensures Leads(Dir(mode, entries), path, obj)
  {
  }

  function Path(p: string, path: seq<string>): string
    decreases |path|
  {
    if path == [] then p else Path(Child(p, path[0]), path[1..])
  }

  /** `obj` is in the tree, at a path that reads `k`. */
  ghost predicate OnTree(root: Node, k: string, obj: Obj) {
    exists path :: path != [] && Path("", path) == k && Leads(root, path, obj)
  }

  predicate Has(disk: Disk, k: string, obj: Obj) {
    k in disk && disk[k] == obj
  }

  /** No later entry replaces what an entry put on the disk. */
  lemma {:induction false} EntryStays(entries: seq<Named>, p: string, i: nat, k: string, obj: Obj)
    requires WellFormedAll(entries) && i < |entries|
    requires Has(Image(entries[i].node, Child(p, entries[i].name)), k, obj)
    ensures Has(ImageAll(entries, p), k, obj)
    decreases |entries|
  {
    hide Image, Under, WellFormed, Child, Parent;
    var n := |entries| - 1;
    if i < n {
      EntryStays(entries[..n], p, i, k, obj);
      ParentOfChild(p, entries[i].name);
      ParentOfChild(p, entries[n].name);
      ImageUnder(entries[i].node, Child(p, entries[i].name));
      ImageUnder(entries[n].node, Child(p, entries[n].name));
      if k in Image(entries[n].node, Child(p, entries[n].name)) {
        SiblingsApart(k, p, entries[i].name, entries[n].name);
      }
    }
  }

  lemma {:induction false} EntryOf(entries: seq<Named>, p: string, k: string) returns (i: nat)
    requires k in ImageAll(entries, p)
    ensures i < |entries|
    ensures Has(Image(entries[i].node, Child(p, entries[i].name)), k, ImageAll(entries, p)[k])
  {
    hide Image;
    i := |entries| - 1;
    if k !in Image(entries[i].node, Child(p, entries[i].name)) {
      i := EntryOf(entries[..i], p, k);
    }
  }

  /** Everything in the tree is on the disk, where its path says. */
  lemma {:induction false} TreeOnDisk(node: Node, p: string, path: seq<string>, obj: Obj)
    requires p != "" && WellFormed(node) && Leads(node, path, obj)
    ensures Has(Image(node, p), Path(p, path), obj)
    decreases |path|
  {
    if node.Dir? {
      ImageAllUnder(node.entries, p);
      if path == [] {
        ImageAllBelow(node.entries, p);
      } else {
        TreeOnDiskAll(node.entries, p, path, obj);
      }
    }
  }

  lemma {:induction false} TreeOnDiskAll(entries: seq<Named>, p: string, path: seq<string>, obj: Obj)
    requires path != [] && WellFormedAll(entries) && exists i :: LeadsInto(entries, i, path, obj)
    ensures Has(ImageAll(entries, p), Path(p, path), obj)
    decreases |path|, 0
  {
    var i: nat :| LeadsInto(entries, i, path, obj);
    ParentOfChild(p, entries[i].name);
    TreeOnDisk(entries[i].node, Child(p, entries[i].name), path[1..], obj);
    EntryStays(entries, p, i, Path(p, path), obj);
  }

  /** Everything on the disk is in the tree. */
  lemma {:induction false} DiskInTree(node: Node, p: string, k: string) returns (path: seq<string>)
    requires k in Image(node, p)
    ensures Leads(node, path, Image(node, p)[k]) && Path(p, path) == k
    decreases node
  {
    path := [];
    if node.Dir? && k in ImageAll(node.entries, p) {
      path := DiskInTreeAll(node.entries, p, k);
    }
  }

  lemma {:induction false} DiskInTreeAll(entries: seq<Named>, p: string, k: string) returns (path: seq<string>)
    requires k in ImageAll(entries, p)
    ensures path != [] && Path(p, path) == k && exists i :: LeadsInto(entries, i, path, ImageAll(entries, p)[k])
    decreases entries
  {
    var i := EntryOf(entries, p, k);
    var rest := DiskInTree(entries[i].node, Child(p, entries[i].name), k);
    path := [entries[i].name] + rest;
    assert path[1..] == rest;
    assert LeadsInto(entries, i, path, ImageAll(entries, p)[k]);
  }

  /** The extracted directory and the archived tree agree on every path: what the tree has,
      links aside, is on the disk with its contents and mode, and the disk has nothing else. */
  lemma MirrorIsExact(mode: Perm, entries: seq<Named>, base: string, headers: seq<Header>, disk: Disk)
    requires WellFormedAll(entries) && WithoutLinks(headers) == Archive(Dir(mode, entries), base)
    requires disk == ExtractBelow(map[], headers, base).disk
    ensures forall path, obj :: path != [] && Leads(Dir(mode, entries), path, obj) ==> Has(disk, Path("", path), obj)
    ensures forall k :: k in disk && k != "" ==> OnTree(Dir(mode, entries), k, disk[k])
  {
    hide ExtractBelow, Archive, ImageAll, WithoutLinks;
    RoundTrip(mode, entries, base, headers);
    assert disk == map["" := DirObj(0x1ED)] + ImageAll(entries, "");
    var root := Dir(mode, entries);
    assert root.entries == entries;
    forall path, obj | path != [] && Leads(root, path, obj)
      ensures Has(disk, Path("", path), obj)
    {
      assert Leads(root, path, obj);
      assert exists i :: LeadsInto(entries, i, path, obj);
      TreeOnDiskAll(entries, "", path, obj);
    }
    forall k | k in disk && k != ""
      ensures OnTree(root, k, disk[k])
    {
      var path := DiskInTreeAll(entries, "", k);
      var i: nat :| LeadsInto(entries, i, path, ImageAll(entries, "")[k]);
      IntoLeads(mode, entries, i, path, disk[k]);
      assert Leads(root, path, disk[k]);
    }
  }
}
