/** Folder paths on both sides of the migration (app/importers/folder_mapping.py). */
module FolderMapping {
  import opened Wrappers
  import opened Text

  datatype Folder = Folder(
    id: string,
    displayName: string,
    parentId: Option<string>,
    wellKnownName: Option<string>,
    childFolderCount: int
  )

  /** Graph paths keep display names; IMAP paths use mailbox names and the server's delimiter. */
  datatype Naming = GraphNaming | ImapNaming(delimiter: char)
  {
    function Separator(): char {
      if GraphNaming? then '/' else delimiter
    }

    function Segment(folder: Folder): string {
      if GraphNaming? then folder.displayName
      else if folder.wellKnownName.Some? && folder.wellKnownName.value in WELL_KNOWN then
        WELL_KNOWN[folder.wellKnownName.value]
      else Replace(folder.displayName, delimiter, '_')
    }
  }

  const WELL_KNOWN: map<string, string> := map[
    "inbox" := "INBOX",
    "sentitems" := "Sent",
    "deleteditems" := "Trash",
    "drafts" := "Drafts",
    "archive" := "Archive"
  ]

  /** `{f.id: f for f in folders}`: the last folder of an id wins. */
  function ById(folders: seq<Folder>): (byId: map<string, Folder>)
    ensures forall id :: id in byId ==> byId[id].id == id && byId[id] in folders
    ensures forall f :: f in folders ==> f.id in byId
  {
    if |folders| == 0 then map[]
    else
      var last := folders[|folders| - 1];
      assert folders == folders[..|folders| - 1] + [last];
      ById(folders[..|folders| - 1])[last.id := last]
  }

  lemma ByIdStep(folders: seq<Folder>, i: nat)
    requires i < |folders|
    ensures ById(folders[..i + 1]).Keys == ById(folders[..i]).Keys + {folders[i].id}
    ensures folders[i].id in ById(folders)
  {
    assert folders[..i + 1][..i] == folders[..i];
    assert folders[i] in folders;
  }

  /** The parent that contributes to the path: named, not empty, and itself in the list. */
  function Parent(byId: map<string, Folder>, id: string): Option<string>
    requires id in byId
  {
    var parentId := byId[id].parentId;
    if parentId.Some? && parentId.value != "" && parentId.value in byId then parentId else None
  }

  /** The entry of an id is the last folder that has it. */
  ghost predicate IsEntry(folders: seq<Folder>, f: Folder) {
    exists i :: 0 <= i < |folders| && folders[i] == f && forall j :: i < j < |folders| ==> folders[j].id != f.id
  }

  lemma {:induction false} EntryIsLast(folders: seq<Folder>, f: Folder)
    requires IsEntry(folders, f)
    ensures f.id in ById(folders) && ById(folders)[f.id] == f
  {
    var init := folders[..|folders| - 1];
    var i :| 0 <= i < |folders| && folders[i] == f && forall j :: i < j < |folders| ==> folders[j].id != f.id;
    if i < |folders| - 1 {
      assert init[i] == f && forall j :: i < j < |init| ==> init[j].id != f.id;
      EntryIsLast(init, f);
    }
  }

  /**
   The name a folder has in its path on the target: a fixed one for each well-known folder, and else its
   display name with every delimiter replaced.
   */
  predicate IsImapSegment(f: Folder, delimiter: char, segment: string) {
    if f.wellKnownName == Some("inbox") then segment == "INBOX"
    else if f.wellKnownName == Some("sentitems") then segment == "Sent"
    else if f.wellKnownName == Some("deleteditems") then segment == "Trash"
    else if f.wellKnownName == Some("drafts") then segment == "Drafts"
    else if f.wellKnownName == Some("archive") then segment == "Archive"
    else
      |segment| == |f.displayName|
      && forall i :: 0 <= i < |segment| ==>
          segment[i] == if f.displayName[i] == delimiter then '_' else f.displayName[i]
  }

  /** The path of a folder is its own segment, below the path of the parent it names, if that is listed. */
  predicate Nests(paths: map<string, string>, f: Folder, separator: char, segment: string) {
    f.id in paths
    && paths[f.id] == if f.parentId.Some? && f.parentId.value != "" && f.parentId.value in paths
                      then paths[f.parentId.value] + [separator] + segment
                      else segment
  }

  lemma SegmentIsRight(f: Folder, delimiter: char)
    ensures IsImapSegment(f, delimiter, ImapNaming(delimiter).Segment(f))
  {
    ReplaceAt(f.displayName, delimiter, '_');
  }

  lemma PathNests(folders: seq<Folder>, naming: Naming, paths: map<string, string>, f: Folder)
    requires Acyclic(ById(folders)) && IsEntry(folders, f) && paths.Keys == ById(folders).Keys
    requires forall id :: id in paths ==> paths[id] == PlainPath(ById(folders), naming, id)
    ensures Nests(paths, f, naming.Separator(), naming.Segment(f))
  {
    EntryIsLast(folders, f);
  }

  /** A rank that falls along parent links witnesses that the links have no cycle. */
  ghost predicate Ranked(byId: map<string, Folder>, rank: map<string, nat>) {
    byId.Keys <= rank.Keys &&
    forall id, parent {:trigger rank[parent], rank[id]} ::
      id in byId && Parent(byId, id) == Some(parent) ==> rank[parent] < rank[id]
  }

  ghost predicate Acyclic(byId: map<string, Folder>) {
    exists rank :: Ranked(byId, rank)
  }

  ghost function SomeRank(byId: map<string, Folder>): (rank: map<string, nat>)
    requires Acyclic(byId)
    ensures Ranked(byId, rank)
  {
    var rank :| Ranked(byId, rank);
    rank
  }

  ghost function Height(byId: map<string, Folder>, id: string): nat
    requires Acyclic(byId) && id in byId
  {
    SomeRank(byId)[id]
  }

  /** The folder's path by recursion over its parents, without a memo. */
  function PlainPath(byId: map<string, Folder>, naming: Naming, id: string): string
    requires Acyclic(byId) && id in byId
    decreases Height(byId, id)
  {
    var segment := naming.Segment(byId[id]);
    match Parent(byId, id)
    case None => segment
    case Some(parent) => PlainPath(byId, naming, parent) + [naming.Separator()] + segment
  }

  /** The segments from the root down to the folder. */
  ghost function Segments(byId: map<string, Folder>, naming: Naming, id: string): (segments: seq<string>)
    requires Acyclic(byId) && id in byId
    ensures |segments| >= 1
    decreases Height(byId, id)
  {
    var segment := naming.Segment(byId[id]);
    match Parent(byId, id)
    case None => [segment]
    case Some(parent) => Segments(byId, naming, parent) + [segment]
  }

  // ---- the memoised builders ------------------------------------------------

  /** The variables the nested function `resolve` closes over. */
  class PathResolver {
    const byId: map<string, Folder>
    const naming: Naming
    var paths: map<string, string>

    ghost predicate Valid()
      reads this
    {
      Acyclic(byId) &&
      forall id :: id in paths ==> id in byId && paths[id] == PlainPath(byId, naming, id)
    }

    constructor (folders: seq<Folder>, naming: Naming)
      requires Acyclic(ById(folders))
      ensures Valid() && paths == map[]
      ensures this.byId == ById(folders) && this.naming == naming
    {
      this.byId := ById(folders);
      this.naming := naming;
      paths := map[];
    }

    method Resolve(folderId: string) returns (path: string)
      requires Valid() && folderId in byId
      modifies this
      ensures Valid() && path == PlainPath(byId, naming, folderId)
      ensures var f := byId[folderId];
              path == if f.parentId.Some? && f.parentId.value != "" && f.parentId.value in byId
                      then PlainPath(byId, naming, f.parentId.value) + [naming.Separator()] + naming.Segment(f)
                      else naming.Segment(f)
      ensures folderId in paths && forall id :: id in old(paths) ==> id in paths
      decreases Height(byId, folderId)
    {
      if folderId in paths {
        return paths[folderId];
      }
      var folder := byId[folderId];
      var segment := naming.Segment(folder);
      if folder.parentId.Some? && folder.parentId.value != "" && folder.parentId.value in byId {
        var parentPath := Resolve(folder.parentId.value);
        path := parentPath + [naming.Separator()] + segment;
      } else {
        path := segment;
      }
      paths := paths[folderId := path];
    }
  }

  method BuildPaths(folders: seq<Folder>, naming: Naming) returns (paths: map<string, string>)
    requires Acyclic(ById(folders))
    ensures paths.Keys == ById(folders).Keys
    ensures forall id :: id in paths ==> paths[id] == PlainPath(ById(folders), naming, id)
  {
    var resolver := new PathResolver(folders, naming);
    ghost var byId := ById(folders);
    for i := 0 to |folders|
      invariant fresh(resolver) && resolver.Valid()
      invariant resolver.byId == byId && resolver.naming == naming
      invariant ById(folders[..i]).Keys <= resolver.paths.Keys
    {
      ByIdStep(folders, i);
      var _ := resolver.Resolve(folders[i].id);
    }
    paths := resolver.paths;
    assert folders[..|folders|] == folders;
  }

  /** `build_folder_paths`. */
  method BuildFolderPaths(folders: seq<Folder>) returns (paths: map<string, string>)
    requires Acyclic(ById(folders))
    ensures paths.Keys == ById(folders).Keys
    ensures forall id :: id in paths ==> paths[id] == PlainPath(ById(folders), GraphNaming, id)
    ensures forall f :: IsEntry(folders, f) ==> Nests(paths, f, '/', f.displayName)
  {
    paths := BuildPaths(folders, GraphNaming);
    forall f | IsEntry(folders, f) ensures Nests(paths, f, '/', f.displayName) {
      PathNests(folders, GraphNaming, paths, f);
    }
  }

  /** `build_imap_paths`. */
  method BuildImapPaths(folders: seq<Folder>, delimiter: char) returns (paths: map<string, string>)
    requires Acyclic(ById(folders))
    ensures paths.Keys == ById(folders).Keys
    ensures forall id :: id in paths ==> paths[id] == PlainPath(ById(folders), ImapNaming(delimiter), id)
    ensures forall f, segment :: IsEntry(folders, f) && IsImapSegment(f, delimiter, segment)
              ==> Nests(paths, f, delimiter, segment)
  {
    paths := BuildPaths(folders, ImapNaming(delimiter));
    forall f, segment | IsEntry(folders, f) && IsImapSegment(f, delimiter, segment)
      ensures Nests(paths, f, delimiter, segment)
    {
      SegmentIsRight(f, delimiter);
      assert segment == ImapNaming(delimiter).Segment(f);
      PathNests(folders, ImapNaming(delimiter), paths, f);
    }
  }

  // ---- what the paths mean --------------------------------------------------

  lemma {:induction false} PathIsJoin(byId: map<string, Folder>, naming: Naming, id: string)
    requires Acyclic(byId) && id in byId
    ensures PlainPath(byId, naming, id) == Join(Segments(byId, naming, id), naming.Separator())
    decreases Height(byId, id)
  {
    match Parent(byId, id)
    case None =>
    case Some(parent) =>
      PathIsJoin(byId, naming, parent);
      JoinSnoc(Segments(byId, naming, parent), naming.Segment(byId[id]), naming.Separator());
  }

  /** Splitting a path gives back its segments exactly when none of them contains the separator. */
  lemma PathRoundTrip(byId: map<string, Folder>, naming: Naming, id: string)
    requires Acyclic(byId) && id in byId
    ensures Split(PlainPath(byId, naming, id), naming.Separator()) == Segments(byId, naming, id)
            <==> forall s :: s in Segments(byId, naming, id) ==> naming.Separator() !in s
  {
    PathIsJoin(byId, naming, id);
    SplitJoin(Segments(byId, naming, id), naming.Separator());
  }

  /** No folder's IMAP segment contains the delimiter, whatever its display name. */
  ghost predicate DelimiterIsSafe(delimiter: char) {
    delimiter != '_' && forall name :: name in WELL_KNOWN ==> delimiter !in WELL_KNOWN[name]
  }

  /** Sanitising works for every folder exactly for the safe delimiters. */
  lemma SafeDelimiters(delimiter: char)
    ensures DelimiterIsSafe(delimiter) <==> forall f :: delimiter !in ImapNaming(delimiter).Segment(f)
  {
    if !DelimiterIsSafe(delimiter) {
      if delimiter == '_' {
        var f := Folder("id", "_", None, None, 0);
        assert delimiter in ImapNaming(delimiter).Segment(f);
      } else {
        var name :| name in WELL_KNOWN && delimiter in WELL_KNOWN[name];
        var f := Folder("id", "", None, Some(name), 0);
        assert delimiter in ImapNaming(delimiter).Segment(f);
      }
    }
  }

  lemma {:induction false} SafeSegments(byId: map<string, Folder>, delimiter: char, id: string)
    requires Acyclic(byId) && id in byId && DelimiterIsSafe(delimiter)
    ensures forall s :: s in Segments(byId, ImapNaming(delimiter), id) ==> delimiter !in s
    decreases Height(byId, id)
  {
    SafeDelimiters(delimiter);
    match Parent(byId, id)
    case None =>
    case Some(parent) => SafeSegments(byId, delimiter, parent);
  }

  ghost predicate PathsDistinct(byId: map<string, Folder>, naming: Naming)
    requires Acyclic(byId)
  {
    forall a, b :: a in byId && b in byId && a != b ==> PlainPath(byId, naming, a) != PlainPath(byId, naming, b)
  }

  /** Folders of one parent, and the roots among themselves, have different segments. */
  ghost predicate SiblingsDistinct(byId: map<string, Folder>, naming: Naming) {
    forall a, b :: a in byId && b in byId && a != b && Parent(byId, a) == Parent(byId, b)
      ==> naming.Segment(byId[a]) != naming.Segment(byId[b])
  }

  lemma {:induction false} EqualSegmentsSameFolder(byId: map<string, Folder>, naming: Naming, a: string, b: string)
    requires Acyclic(byId) && a in byId && b in byId && SiblingsDistinct(byId, naming)
    requires Segments(byId, naming, a) == Segments(byId, naming, b)
    ensures a == b
    decreases Height(byId, a)
  {
    hide Acyclic;
    var sa, sb := Segments(byId, naming, a), Segments(byId, naming, b);
    assert sa[|sa| - 1] == naming.Segment(byId[a]);
    assert sb[|sb| - 1] == naming.Segment(byId[b]);
    match (Parent(byId, a), Parent(byId, b))
    case (Some(pa), Some(pb)) =>
      assert Segments(byId, naming, pa) == sa[..|sa| - 1];
      assert Segments(byId, naming, pb) == sb[..|sb| - 1];
      EqualSegmentsSameFolder(byId, naming, pa, pb);
    case _ =>
  }

  lemma EqualPathsSameFolder(byId: map<string, Folder>, delimiter: char, a: string, b: string)
    requires Acyclic(byId) && DelimiterIsSafe(delimiter) && SiblingsDistinct(byId, ImapNaming(delimiter))
    requires a in byId && b in byId
    requires PlainPath(byId, ImapNaming(delimiter), a) == PlainPath(byId, ImapNaming(delimiter), b)
    ensures a == b
  {
    var naming := ImapNaming(delimiter);
    SafeSegments(byId, delimiter, a);
    SafeSegments(byId, delimiter, b);
    PathRoundTrip(byId, naming, a);
    PathRoundTrip(byId, naming, b);
    EqualSegmentsSameFolder(byId, naming, a, b);
  }

  lemma EqualSegmentEqualPath(byId: map<string, Folder>, naming: Naming, a: string, b: string)
    requires Acyclic(byId) && a in byId && b in byId
    requires Parent(byId, a) == Parent(byId, b) && naming.Segment(byId[a]) == naming.Segment(byId[b])
    ensures PlainPath(byId, naming, a) == PlainPath(byId, naming, b)
  {
  }

  /** IMAP paths tell all folders apart exactly when no two siblings share a segment. */
  lemma ImapPathsDistinct(byId: map<string, Folder>, delimiter: char)
    requires Acyclic(byId) && DelimiterIsSafe(delimiter)
    ensures PathsDistinct(byId, ImapNaming(delimiter)) <==> SiblingsDistinct(byId, ImapNaming(delimiter))
  {
    var naming := ImapNaming(delimiter);
    if SiblingsDistinct(byId, naming) {
      forall a, b | a in byId && b in byId && a != b
        ensures PlainPath(byId, naming, a) != PlainPath(byId, naming, b)
      {
        if PlainPath(byId, naming, a) == PlainPath(byId, naming, b) {
          EqualPathsSameFolder(byId, delimiter, a, b);
        }
      }
    } else {
      var a, b :| a in byId && b in byId && a != b && Parent(byId, a) == Parent(byId, b)
                  && naming.Segment(byId[a]) == naming.Segment(byId[b]);
      EqualSegmentEqualPath(byId, naming, a, b);
    }
  }

  ghost predicate UniqueIds(folders: seq<Folder>) {
    forall i, j :: 0 <= i < j < |folders| ==> folders[i].id != folders[j].id
  }

  /** With unique ids the table, and so every path, does not depend on the order of the list. */
  lemma OrderDoesNotMatter(folders: seq<Folder>, others: seq<Folder>)
    requires UniqueIds(folders) && UniqueIds(others)
    requires forall f :: f in folders <==> f in others
    ensures ById(folders) == ById(others)
  {
    var a, b := ById(folders), ById(others);
    forall id | id in a ensures id in b && a[id] == b[id] {
      assert a[id] in folders && b[id] in others;
      var f, g := a[id], b[id];
      assert g in folders;
      var i :| 0 <= i < |folders| && folders[i] == f;
      var j :| 0 <= j < |folders| && folders[j] == g;
    }
    forall id | id in b ensures id in a {
      assert b[id] in folders;
    }
  }
}
