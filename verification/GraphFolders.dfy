/** Paged collections and the folder tree of a source mailbox (app/graph/client.py). */
module GraphFolders {
  import opened Wrappers
  import opened FolderMapping

  // ---- paging ---------------------------------------------------------------

  datatype Page<T> = Page(value: seq<T>, nextLink: Option<string>)

  /** The pages the server chains from `url`; the link of the last one is absent or empty. */
  ghost predicate PageChain<T>(server: map<string, Page<T>>, url: string, chain: seq<Page<T>>)
    decreases |chain|
  {
    |chain| > 0 && url in server && chain[0] == server[url] &&
    match chain[0].nextLink
    case None => |chain| == 1
    case Some(next) => if next == "" then |chain| == 1 else PageChain(server, next, chain[1..])
  }

  ghost function Items<T>(chain: seq<Page<T>>): seq<T> {
    if |chain| == 0 then [] else chain[0].value + Items(chain[1..])
  }

  method PagedGet<T>(server: map<string, Page<T>>, url: string, ghost chain: seq<Page<T>>)
    returns (items: seq<T>)
    requires url != "" && PageChain(server, url, chain)
    ensures items == Items(chain)
  {
    items := [];
    var nextUrl := url;
    ghost var rest := chain;
    while nextUrl != ""
      invariant nextUrl != "" ==> PageChain(server, nextUrl, rest)
      invariant nextUrl == "" ==> rest == []
      invariant items + Items(rest) == Items(chain)
      decreases |rest|
    {
      var page := server[nextUrl];
      items := items + page.value;
      rest := rest[1..];
      nextUrl := if page.nextLink.Some? then page.nextLink.value else "";
    }
  }

  // ---- the folder tree ------------------------------------------------------

  /** A folder on the server with the child count it reports and the children it really has. */
  datatype Node = Node(id: string, displayName: string, childFolderCount: int, children: seq<Node>)

  function ToFolder(node: Node, parentId: Option<string>, wellKnown: map<string, string>): Folder {
    Folder(node.id, node.displayName, parentId,
           if node.id in wellKnown then Some(wellKnown[node.id]) else None,
           node.childFolderCount)
  }

  /** What the client lists: a folder's children are asked for only when its count is positive. */
  function Listing(nodes: seq<Node>, parentId: Option<string>, wellKnown: map<string, string>): seq<Folder> {
    if |nodes| == 0 then []
    else Subtree(nodes[0], parentId, wellKnown) + Listing(nodes[1..], parentId, wellKnown)
  }

  function Subtree(node: Node, parentId: Option<string>, wellKnown: map<string, string>): seq<Folder> {
    [ToFolder(node, parentId, wellKnown)]
    + if node.childFolderCount > 0 then Listing(node.children, Some(node.id), wellKnown) else []
  }

  lemma {:induction false} ListingSnoc(nodes: seq<Node>, i: nat, parentId: Option<string>,
                                       wellKnown: map<string, string>)
    requires i < |nodes|
    ensures Listing(nodes[..i + 1], parentId, wellKnown)
            == Listing(nodes[..i], parentId, wellKnown) + Subtree(nodes[i], parentId, wellKnown)
  {
    if i > 0 {
      ListingSnoc(nodes[1..], i - 1, parentId, wellKnown);
      assert nodes[..i + 1][1..] == nodes[1..][..i] && nodes[..i][1..] == nodes[1..][..i - 1];
    }
  }

  /** The folder stands in the tree as this node, below a folder of this id or the root. */
  predicate Holds(nodes: seq<Node>, root: Option<string>, node: Node, parentId: Option<string>) {
    |nodes| > 0 &&
    ((node == nodes[0] && parentId == root)
     || Holds(nodes[0].children, Some(nodes[0].id), node, parentId)
     || Holds(nodes[1..], root, node, parentId))
  }

  /** A listed folder has the fields of its node, and the well-known name that Graph resolved to its id, if any. */
  ghost predicate Describes(f: Folder, nodes: seq<Node>, root: Option<string>, wellKnown: map<string, string>) {
    && (exists node :: Holds(nodes, root, node, f.parentId)
          && node.id == f.id && node.displayName == f.displayName && node.childFolderCount == f.childFolderCount)
    && (f.wellKnownName.Some? <==> f.id in wellKnown)
    && (f.id in wellKnown ==> f.wellKnownName == Some(wellKnown[f.id]))
  }

  lemma {:induction false} ListingDescribes(nodes: seq<Node>, root: Option<string>, wellKnown: map<string, string>)
    ensures forall f :: f in Listing(nodes, root, wellKnown) ==> Describes(f, nodes, root, wellKnown)
  {
    if |nodes| > 0 {
      var node := nodes[0];
      ListingDescribes(node.children, Some(node.id), wellKnown);
      ListingDescribes(nodes[1..], root, wellKnown);
      forall f | f in Listing(nodes, root, wellKnown) ensures Describes(f, nodes, root, wellKnown) {
        if f == ToFolder(node, root, wellKnown) {
          assert Holds(nodes, root, node, f.parentId);
        } else if f in Listing(nodes[1..], root, wellKnown) {
          var n :| Holds(nodes[1..], root, n, f.parentId)
            && n.id == f.id && n.displayName == f.displayName && n.childFolderCount == f.childFolderCount;
          assert Holds(nodes, root, n, f.parentId);
        } else {
          assert f in Subtree(node, root, wellKnown) && node.childFolderCount > 0;
          assert f in Listing(node.children, Some(node.id), wellKnown);
          var n :| Holds(node.children, Some(node.id), n, f.parentId)
            && n.id == f.id && n.displayName == f.displayName && n.childFolderCount == f.childFolderCount;
          assert Holds(nodes, root, n, f.parentId);
        }
      }
    }
  }

  method ListChildFolders(children: seq<Node>, parentId: Option<string>, wellKnown: map<string, string>)
    returns (result: seq<Folder>)
    ensures result == Listing(children, parentId, wellKnown)
  {
    result := [];
    assert Listing(children[..0], parentId, wellKnown) == [];
    hide Listing, ToFolder;
    for i := 0 to |children|
      invariant result == Listing(children[..i], parentId, wellKnown)
    {
      var node := children[i];
      ghost var before := result;
      result := result + [ToFolder(node, parentId, wellKnown)];
      if node.childFolderCount > 0 {
        var below := ListChildFolders(node.children, Some(node.id), wellKnown);
        result := result + below;
      }
      assert result == before + Subtree(node, parentId, wellKnown);
      ListingSnoc(children, i, parentId, wellKnown);
    }
    assert children[..|children|] == children;
  }

  /** `list_mail_folders`: top-level folders name the mailbox root, which is not listed, as their parent. */
  method ListMailFolders(topLevel: seq<Node>, mailboxRoot: Option<string>, wellKnown: map<string, string>)
    returns (folders: seq<Folder>)
    ensures folders == Listing(topLevel, mailboxRoot, wellKnown)
    ensures forall f :: f in folders ==> Describes(f, topLevel, mailboxRoot, wellKnown)
  {
    folders := ListChildFolders(topLevel, mailboxRoot, wellKnown);
    ListingDescribes(topLevel, mailboxRoot, wellKnown);
  }

  /** Every folder of the tree, each one before its children and these before its next sibling. */
  function Preorder(nodes: seq<Node>, parentId: Option<string>, wellKnown: map<string, string>): seq<Folder> {
    if |nodes| == 0 then []
    else
      var node := nodes[0];
      [ToFolder(node, parentId, wellKnown)]
      + Preorder(node.children, Some(node.id), wellKnown)
      + Preorder(nodes[1..], parentId, wellKnown)
  }

  /** No folder with children reports a count of zero or less. */
  predicate CountsTruthful(nodes: seq<Node>) {
    |nodes| == 0 ||
    ((|nodes[0].children| > 0 ==> nodes[0].childFolderCount > 0)
     && CountsTruthful(nodes[0].children) && CountsTruthful(nodes[1..]))
  }

  lemma {:induction false} ListingNotLonger(nodes: seq<Node>, parentId: Option<string>, wellKnown: map<string, string>)
    ensures |Listing(nodes, parentId, wellKnown)| <= |Preorder(nodes, parentId, wellKnown)|
    ensures |nodes| > 0 ==> |Preorder(nodes, parentId, wellKnown)| > 0
    ensures |Listing(nodes, parentId, wellKnown)| == |Preorder(nodes, parentId, wellKnown)| ==> CountsTruthful(nodes)
  {
    if |nodes| > 0 {
      ListingNotLonger(nodes[0].children, Some(nodes[0].id), wellKnown);
      ListingNotLonger(nodes[1..], parentId, wellKnown);
    }
  }

  /** The listing holds the whole tree in preorder exactly when the reported counts are truthful. */
  lemma {:induction false} ListingIsPreorder(nodes: seq<Node>, parentId: Option<string>, wellKnown: map<string, string>)
    ensures Listing(nodes, parentId, wellKnown) == Preorder(nodes, parentId, wellKnown) <==> CountsTruthful(nodes)
  {
    if CountsTruthful(nodes) {
      if |nodes| > 0 {
        ListingIsPreorder(nodes[0].children, Some(nodes[0].id), wellKnown);
        ListingIsPreorder(nodes[1..], parentId, wellKnown);
      }
    } else {
      ListingNotLonger(nodes, parentId, wellKnown);
    }
  }

  // ---- parents come first ---------------------------------------------------

  ghost predicate EarlierParent(folders: seq<Folder>, i: nat)
    requires i < |folders|
  {
    exists j :: 0 <= j < i && folders[i].parentId == Some(folders[j].id)
  }

  ghost predicate ParentsFirst(folders: seq<Folder>, root: Option<string>) {
    forall i :: 0 <= i < |folders| ==> folders[i].parentId == root || EarlierParent(folders, i)
  }

  lemma EarlierParentShifts(before: seq<Folder>, folders: seq<Folder>, after: seq<Folder>, i: nat)
    requires i < |folders| && EarlierParent(folders, i)
    ensures EarlierParent(before + folders + after, |before| + i)
  {
    var j :| 0 <= j < i && folders[i].parentId == Some(folders[j].id);
    var all := before + folders + after;
    assert all[|before| + j] == folders[j] && all[|before| + i] == folders[i];
  }

  lemma ParentsFirstConcat(head: Folder, below: seq<Folder>, rest: seq<Folder>, root: Option<string>)
    requires head.parentId == root && ParentsFirst(below, Some(head.id)) && ParentsFirst(rest, root)
    ensures ParentsFirst([head] + below + rest, root)
  {
    var all := [head] + below + rest;
    forall i | 0 <= i < |all| ensures all[i].parentId == root || EarlierParent(all, i) {
      if 1 <= i <= |below| {
        var k := i - 1;
        if below[k].parentId == Some(head.id) {
          assert all[0] == head && all[i] == below[k];
        } else {
          EarlierParentShifts([head], below, rest, k);
        }
      } else if |below| < i {
        var k := i - 1 - |below|;
        if rest[k].parentId != root {
          EarlierParentShifts([head] + below, rest, [], k);
          assert [head] + below + rest + [] == all;
        }
      }
    }
  }

  /** A folder is listed after the parent its path is built from, whatever the reported counts. */
  lemma {:induction false} ListingParentsFirst(nodes: seq<Node>, parentId: Option<string>,
                                               wellKnown: map<string, string>)
    ensures ParentsFirst(Listing(nodes, parentId, wellKnown), parentId)
  {
    if |nodes| > 0 {
      var node := nodes[0];
      var below := if node.childFolderCount > 0 then Listing(node.children, Some(node.id), wellKnown) else [];
      if node.childFolderCount > 0 {
        ListingParentsFirst(node.children, Some(node.id), wellKnown);
      }
      ListingParentsFirst(nodes[1..], parentId, wellKnown);
      ParentsFirstConcat(ToFolder(node, parentId, wellKnown), below, Listing(nodes[1..], parentId, wellKnown),
                         parentId);
      assert Subtree(node, parentId, wellKnown) == [ToFolder(node, parentId, wellKnown)] + below;
    }
  }

  /** Parents-first lists with unique ids have no parent cycle, so path building terminates on them. */
  lemma ParentsFirstAcyclic(folders: seq<Folder>, root: Option<string>)
    requires ParentsFirst(folders, root) && UniqueIds(folders)
    requires forall f :: f in folders ==> root != Some(f.id)
    ensures Acyclic(ById(folders))
  {
    var byId := ById(folders);
    var rank := map id | id in byId :: Position(folders, byId[id]);
    forall id, parent | id in byId && Parent(byId, id) == Some(parent)
      ensures rank[parent] < rank[id]
    {
      var i := Position(folders, byId[id]);
      assert folders[i].parentId == Some(parent);
      assert byId[parent] in folders;
      var j :| 0 <= j < i && folders[i].parentId == Some(folders[j].id);
      assert folders[j].id == parent;
      var k := Position(folders, byId[parent]);
      assert folders[k].id == parent;
      assert j == k;
    }
    assert Ranked(byId, rank);
  }

  /** What the client lists has no parent cycle, when ids are unique and the mailbox root is not among them. */
  lemma ListingAcyclic(topLevel: seq<Node>, mailboxRoot: Option<string>, wellKnown: map<string, string>)
    requires var folders := Listing(topLevel, mailboxRoot, wellKnown);
             UniqueIds(folders) && forall f :: f in folders ==> mailboxRoot != Some(f.id)
    ensures Acyclic(ById(Listing(topLevel, mailboxRoot, wellKnown)))
  {
    ListingParentsFirst(topLevel, mailboxRoot, wellKnown);
    ParentsFirstAcyclic(Listing(topLevel, mailboxRoot, wellKnown), mailboxRoot);
  }

  function Position(folders: seq<Folder>, folder: Folder): (i: nat)
    requires folder in folders
    ensures i < |folders| && folders[i] == folder
  {
    if folders[0] == folder then 0 else 1 + Position(folders[1..], folder)
  }
}
