/**
  The App Viewer's route-tree builder (`makeRouteNode` and `getIconType` in
  app/client/src/pages/AppViewer/utils.ts).

  A navigation tree of groups and pages is turned into a list of routes.
  `makeRouteNode` works by effects: it appends at most one route to the list it
  is given and marks the pages it reaches as visited in the caller's pages map.
  The methods below keep that form (two small classes for the two mutable
  objects) and are proved against pure specification functions; the lemmas
  state what the source promises about those functions.
*/
module RouteTree {
  import opened Wrappers

  /** A navigation-tree node. `None` stands for an absent (undefined) field. */
  datatype NavNode = NavNode(
    title: string,
    icon: Option<string>,
    isPage: bool,
    pageId: Option<string>,
    children: Children)

  /** A node's `children` field: absent, or an array, which is truthy even
      when it is empty. */
  datatype Children = NoChildren | Children(nodes: seq<NavNode>)

  /** The entry of the pages map for one page title. */
  datatype PageEntry = PageEntry(pageId: string, visited: bool)

  /** An entry of `hideRow`: a row to leave out of the route list. */
  datatype HideRow = HideRow(pageId: Option<string>)

  /** A route item: `routes` is present only for a group that has children. */
  datatype Route = Route(name: string, icon: Option<string>, path: string, routes: Option<seq<Route>>)

  const ICON_PREFIX: string := "icon-"
  const GROUP_PATH: string := "/"

  /** `getIconType`: a truthy icon (a non-empty string) gets the icon-font
      prefix; any other icon gives `undefined`. The icon name can be read back
      from the result. */
  function GetIconType(icon: Option<string>): (r: Option<string>)
    ensures r.Some? <==> icon.Some? && icon.value != ""
    ensures r.Some? ==> |r.value| == |ICON_PREFIX| + |icon.value|
    ensures r.Some? ==> r.value[..|ICON_PREFIX|] == ICON_PREFIX && r.value[|ICON_PREFIX|..] == icon.value
  {
    if icon.Some? && icon.value != "" then Some(ICON_PREFIX + icon.value) else None
  }

  /** `hideRow.find(hn => hn.pageId === node.pageId)` finds an entry.
      Two absent page ids are equal, as `undefined === undefined` is. */
  predicate Hidden(hideRow: seq<HideRow>, pageId: Option<string>) {
    exists i :: 0 <= i < |hideRow| && hideRow[i].pageId == pageId
  }

  /** The part of the pages map that routes depend on: the page id of each title. */
  function PageIds(entries: map<string, PageEntry>): (ids: map<string, string>)
    ensures ids.Keys == entries.Keys
    ensures forall t :: t in entries ==> ids[t] == entries[t].pageId
  {
    map t | t in entries :: entries[t].pageId
  }

  /** The item `makeRouteNode` builds for `node`, before the hide check. */
  function BuildItem(ids: map<string, string>, hideRow: seq<HideRow>, viewerURL: string -> string, node: NavNode): (r: Option<Route>)
    decreases node, 1
    ensures r.None? <==> node.isPage && node.title !in ids
    ensures r.Some? ==> r.value.name == node.title && r.value.icon == GetIconType(node.icon)
    ensures r.Some? && node.isPage ==> r.value.path == viewerURL(ids[node.title]) && r.value.routes.None?
    ensures !node.isPage ==> r.value.path == GROUP_PATH && (r.value.routes.Some? <==> node.children.Children?)
  {
    var icon := GetIconType(node.icon);
    if node.isPage then
      if node.title in ids then Some(Route(node.title, icon, viewerURL(ids[node.title]), None)) else None
    else
      match node.children
      case Children(children) => Some(Route(node.title, icon, GROUP_PATH, Some(BuildRoutes(ids, hideRow, viewerURL, children))))
      case NoChildren => Some(Route(node.title, icon, GROUP_PATH, None))
  }

  /** What one call of `makeRouteNode` appends to its list. */
  function Emitted(ids: map<string, string>, hideRow: seq<HideRow>, viewerURL: string -> string, node: NavNode): (r: seq<Route>)
    decreases node, 2
    ensures |r| <= 1
    ensures r != [] <==> BuildItem(ids, hideRow, viewerURL, node).Some? && !Hidden(hideRow, node.pageId)
    ensures r != [] ==> r[0] == BuildItem(ids, hideRow, viewerURL, node).value
  {
    match BuildItem(ids, hideRow, viewerURL, node)
    case None => []
    case Some(item) => if Hidden(hideRow, node.pageId) then [] else [item]
  }

  /** The routes list built by running `makeRouteNode` over `nodes` in order. */
  function BuildRoutes(ids: map<string, string>, hideRow: seq<HideRow>, viewerURL: string -> string, nodes: seq<NavNode>): (r: seq<Route>)
    decreases nodes, 0
  {
    if nodes == [] then []
    else BuildRoutes(ids, hideRow, viewerURL, nodes[..|nodes| - 1]) + Emitted(ids, hideRow, viewerURL, nodes[|nodes| - 1])
  }

  /** The titles `makeRouteNode` marks visited under `node`, given the titles
      present in the pages map. Hiding plays no part in it. */
  function VisitedTitles(keys: set<string>, node: NavNode): set<string>
    decreases node, 1
  {
    if node.isPage then
      if node.title in keys then {node.title} else {}
    else
      match node.children
      case Children(children) => VisitedInList(keys, children)
      case NoChildren => {}
  }

  function VisitedInList(keys: set<string>, nodes: seq<NavNode>): set<string>
    decreases nodes, 0
  {
    if nodes == [] then {}
    else VisitedInList(keys, nodes[..|nodes| - 1]) + VisitedTitles(keys, nodes[|nodes| - 1])
  }

  /** The pages map after marking the entries of `titles` visited. */
  function MarkAll(entries: map<string, PageEntry>, titles: set<string>): (m: map<string, PageEntry>)
    ensures m.Keys == entries.Keys
    ensures forall t :: t in entries && t in titles ==> m[t] == entries[t].(visited := true)
    ensures forall t :: t in entries && t !in titles ==> m[t] == entries[t]
  {
    map t | t in entries :: if t in titles then entries[t].(visited := true) else entries[t]
  }

  /** The caller's pages map, keyed by page title. */
  class PagesMap {
    var entries: map<string, PageEntry>

    constructor (entries: map<string, PageEntry>)
      ensures this.entries == entries
    {
      this.entries := entries;
    }

    /** `pagesMap[title].visited = true` */
    method MarkVisited(title: string)
      requires title in entries
      modifies this
      ensures entries == old(entries)[title := old(entries)[title].(visited := true)]
    {
      entries := entries[title := entries[title].(visited := true)];
    }
  }

  /** A route array that `makeRouteNode` pushes into. */
  class RouteList {
    var items: seq<Route>

    constructor ()
      ensures items == []
    {
      items := [];
    }

    /** `push`: appends at the end; earlier items stay as they were. */
    method Push(item: Route)
      modifies this
      ensures items == old(items) + [item]
    {
      items := items + [item];
    }
  }

  /** `makeRouteNode(pagesMap, newTree, hideRow)(node)` */
  method MakeRouteNode(pagesMap: PagesMap, newTree: RouteList, hideRow: seq<HideRow>, viewerURL: string -> string, node: NavNode)
    modifies pagesMap, newTree
    decreases node
    ensures newTree.items == old(newTree.items) + Emitted(PageIds(old(pagesMap.entries)), hideRow, viewerURL, node)
    ensures pagesMap.entries == MarkAll(old(pagesMap.entries), VisitedTitles(old(pagesMap.entries).Keys, node))
  {
    ghost var entries0 := pagesMap.entries;
    ghost var ids := PageIds(entries0);
    var item: Option<Route> := None;
    var icon := GetIconType(node.icon);
    if node.isPage {
      if node.title in pagesMap.entries {
        item := Some(Route(node.title, icon, viewerURL(pagesMap.entries[node.title].pageId), None));
        pagesMap.MarkVisited(node.title);
      }
      MarkOneTitle(entries0, node.title);
    } else if node.children.Children? {
      var routes := new RouteList();
      var children := node.children.nodes;
      for i := 0 to |children|
        invariant routes.items == BuildRoutes(ids, hideRow, viewerURL, children[..i])
        invariant pagesMap.entries == MarkAll(entries0, VisitedInList(entries0.Keys, children[..i]))
        invariant newTree.items == old(newTree.items)
      {
        assert children[..i + 1][..i] == children[..i];
        ghost var before := VisitedInList(entries0.Keys, children[..i]);
        MarkAllKeepsPageIds(entries0, before);
        MakeRouteNode(pagesMap, routes, hideRow, viewerURL, children[i]);
        MarkAllCompose(entries0, before, VisitedTitles(entries0.Keys, children[i]));
      }
      assert children[..|children|] == children;
      item := Some(Route(node.title, icon, GROUP_PATH, Some(routes.items)));
    } else {
      item := Some(Route(node.title, icon, GROUP_PATH, None));
      assert MarkAll(entries0, {}) == entries0;
    }
    if item.Some? {
      if !(exists i :: 0 <= i < |hideRow| && hideRow[i].pageId == node.pageId) {
        newTree.Push(item.value);
      }
    }
  }

  /** Marking one page title, as the page branch does, is `MarkAll` of what
      `VisitedTitles` says for a page node. */
  lemma MarkOneTitle(entries: map<string, PageEntry>, title: string)
    ensures title in entries ==> entries[title := entries[title].(visited := true)] == MarkAll(entries, {title})
    ensures title !in entries ==> entries == MarkAll(entries, {})
  {
  }

  /** Marking pages visited leaves every page id alone, so the routes built
      for later siblings do not depend on the pages visited before them. */
  lemma MarkAllKeepsPageIds(entries: map<string, PageEntry>, titles: set<string>)
    ensures PageIds(MarkAll(entries, titles)) == PageIds(entries)
    ensures MarkAll(entries, titles).Keys == entries.Keys
  {
    var m := MarkAll(entries, titles);
    assert forall t :: t in m ==> PageIds(m)[t] == PageIds(entries)[t];
  }

  /** Marking in two rounds marks the union. */
  lemma MarkAllCompose(entries: map<string, PageEntry>, a: set<string>, b: set<string>)
    ensures MarkAll(MarkAll(entries, a), b) == MarkAll(entries, a + b)
  {
  }

  /** The visited flag is set before the hide check: a hidden page that is in
      the pages map produces no route yet is marked visited. */
  lemma HiddenPageStillVisited(entries: map<string, PageEntry>, hideRow: seq<HideRow>, viewerURL: string -> string, node: NavNode)
    requires node.isPage && node.title in entries && Hidden(hideRow, node.pageId)
    ensures Emitted(PageIds(entries), hideRow, viewerURL, node) == []
    ensures MarkAll(entries, VisitedTitles(entries.Keys, node))[node.title].visited
  {
  }

  /** A page node whose title is not in the pages map produces nothing and
      changes nothing. */
  lemma MissingPageChangesNothing(entries: map<string, PageEntry>, hideRow: seq<HideRow>, viewerURL: string -> string, node: NavNode)
    requires node.isPage && node.title !in entries
    ensures Emitted(PageIds(entries), hideRow, viewerURL, node) == []
    ensures MarkAll(entries, VisitedTitles(entries.Keys, node)) == entries
  {
    assert VisitedTitles(entries.Keys, node) == {};
  }

  /** Only titles present in the pages map are ever marked. */
  lemma {:induction false} VisitedTitlesAreKeys(keys: set<string>, node: NavNode)
    ensures VisitedTitles(keys, node) <= keys
    decreases node, 1
  {
    match node.children
    case Children(children) => VisitedInListAreKeys(keys, children);
    case NoChildren =>
  }

  lemma {:induction false} VisitedInListAreKeys(keys: set<string>, nodes: seq<NavNode>)
    ensures VisitedInList(keys, nodes) <= keys
    decreases nodes, 0
  {
    if nodes != [] {
      VisitedInListAreKeys(keys, nodes[..|nodes| - 1]);
      VisitedTitlesAreKeys(keys, nodes[|nodes| - 1]);
    }
  }

  /** Running over two runs of siblings one after the other builds the two
      route lists one after the other: children are handled in order and
      independently of each other. */
  lemma {:induction false} BuildRoutesAppend(ids: map<string, string>, hideRow: seq<HideRow>, viewerURL: string -> string, a: seq<NavNode>, b: seq<NavNode>)
    ensures BuildRoutes(ids, hideRow, viewerURL, a + b) == BuildRoutes(ids, hideRow, viewerURL, a) + BuildRoutes(ids, hideRow, viewerURL, b)
    decreases |b|
  {
    if b == [] {
      assert a + b == a;
    } else {
      var b' := b[..|b| - 1];
      assert (a + b)[..|a + b| - 1] == a + b';
      assert (a + b)[|a + b| - 1] == b[|b| - 1];
      BuildRoutesAppend(ids, hideRow, viewerURL, a, b');
    }
  }

  /** Each child contributes at most one route to its group's routes. */
  lemma {:induction false} BuildRoutesBounded(ids: map<string, string>, hideRow: seq<HideRow>, viewerURL: string -> string, nodes: seq<NavNode>)
    ensures |BuildRoutes(ids, hideRow, viewerURL, nodes)| <= |nodes|
    decreases |nodes|
  {
    if nodes != [] {
      BuildRoutesBounded(ids, hideRow, viewerURL, nodes[..|nodes| - 1]);
    }
  }
}
