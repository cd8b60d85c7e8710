/** The file tree of the explorer: each entry is drawn as a file button or as a
    folder holding its entries, and every button carries the slash-separated path
    built from the names of the folders above it. */
module TreeView {
  import opened Common

  /** An entry of the tree data: a bare file name, or a name followed by the
      entries under it (`string | [string, ...TreeItem[]]`). A name followed by
      no entries is drawn like a bare file name. */
  datatype TreeItem = Name(name: string) | Group(name: string, children: seq<TreeItem>)

  /** What is drawn for one entry. */
  datatype NodeView =
    | FileButton(text: string, path: string, active: bool)
    | Folder(text: string, entries: seq<NodeView>)

  /** The entries under an item. */
  function Children(item: TreeItem): seq<TreeItem>
  {
    match item
    case Name(_) => []
    case Group(_, children) => children
  }

  /** The path of an entry: its name alone under an empty parent path, otherwise
      the parent path, a slash and the name. */
  function CurrentPath(parent: string, name: string): (r: string)
    ensures parent == "" ==> r == name
    ensures parent != "" ==> r == parent + "/" + name && |r| > |parent|
  {
    if parent == "" then name else parent + "/" + name
  }

  /** One entry drawn under `parent`, labelled with its name: a button exactly
      when it has no entries below it (a name followed by no entries included),
      carrying its path and active exactly when the selected value is that path;
      otherwise a folder drawing its entries under its own path. */
  function Tree(item: TreeItem, selected: Option<string>, parent: string): (r: NodeView)
    ensures r.text == item.name
    ensures r.FileButton? <==> Children(item) == []
    ensures r.FileButton? ==>
      r.path == CurrentPath(parent, item.name) && (r.active <==> selected == Some(r.path))
    ensures r.Folder? ==> r.entries == Forest(Children(item), selected, CurrentPath(parent, item.name))
    decreases item
  {
    var path := CurrentPath(parent, item.name);
    match item
    case Name(name) => FileButton(name, path, selected == Some(path))
    case Group(name, children) =>
      if |children| == 0 then FileButton(name, path, selected == Some(path))
      else Folder(name, Forest(children, selected, path))
  }

  /** A list of entries drawn under the same parent path: one view per entry, in order. */
  function Forest(items: seq<TreeItem>, selected: Option<string>, parent: string): (r: seq<NodeView>)
    ensures |r| == |items|
    ensures forall k :: 0 <= k < |items| ==> r[k] == Tree(items[k], selected, parent)
    decreases items
  {
    if |items| == 0 then [] else [Tree(items[0], selected, parent)] + Forest(items[1..], selected, parent)
  }

  /** The whole tree: one view per top-level entry, each under the empty parent path. */
  function View(data: seq<TreeItem>, selected: Option<string>): (r: seq<NodeView>)
    ensures |r| == |data|
    ensures forall k :: 0 <= k < |data| ==> r[k] == Tree(data[k], selected, "")
  {
    Forest(data, selected, "")
  }

  // ---------------------------------------------------------------------------
  // the buttons of a drawn tree and the routes of the data

  /** The file buttons of a drawn entry, left to right. */
  function Buttons(view: NodeView): (r: seq<NodeView>)
    ensures forall k :: 0 <= k < |r| ==> r[k].FileButton?
    decreases view
  {
    match view
    case FileButton(_, _, _) => [view]
    case Folder(_, entries) => ButtonsOf(entries)
  }

  function ButtonsOf(views: seq<NodeView>): (r: seq<NodeView>)
    ensures forall k :: 0 <= k < |r| ==> r[k].FileButton?
    decreases views
  {
    if |views| == 0 then [] else Buttons(views[0]) + ButtonsOf(views[1..])
  }

  /** `[n] + r` for every route `r`. */
  function Prepend(n: string, routes: seq<seq<string>>): (r: seq<seq<string>>)
    ensures |r| == |routes|
    ensures forall k :: 0 <= k < |r| ==> r[k] == [n] + routes[k]
  {
    seq(|routes|, k requires 0 <= k < |routes| => [n] + routes[k])
  }

  /** The names from an entry down to each of its files, left to right. */
  function Routes(item: TreeItem): (r: seq<seq<string>>)
    ensures forall k :: 0 <= k < |r| ==> |r[k]| >= 1
    decreases item
  {
    if |Children(item)| == 0 then [[item.name]]
    else Prepend(item.name, RoutesOf(Children(item)))
  }

  function RoutesOf(items: seq<TreeItem>): (r: seq<seq<string>>)
    ensures forall k :: 0 <= k < |r| ==> |r[k]| >= 1
    decreases items
  {
    if |items| == 0 then [] else Routes(items[0]) + RoutesOf(items[1..])
  }

  /** The path reached from `parent` by descending through the names of `route`. */
  function Extend(parent: string, route: seq<string>): string
    decreases |route|
  {
    if |route| == 0 then parent else Extend(CurrentPath(parent, route[0]), route[1..])
  }

  /** Every name in the entry and below it is non-empty. */
  predicate Named(item: TreeItem)
    decreases item
  {
    item.name != "" && forall k :: 0 <= k < |Children(item)| ==> Named(Children(item)[k])
  }

  // ---------------------------------------------------------------------------
  // properties

  /** Each button of a drawn entry belongs to one route of the data, in order:
      its text is the route's last name, its path is the route followed from the
      parent path, and it is active exactly when that path is the selected value.
      Clicking it reports that path. */
  lemma {:induction false} TreeButtons(item: TreeItem, selected: Option<string>, parent: string)
    ensures var b, r := Buttons(Tree(item, selected, parent)), Routes(item);
      && |b| == |r|
      && forall k :: 0 <= k < |b| ==>
           b[k] == FileButton(Last(r[k]), Extend(parent, r[k]), selected == Some(Extend(parent, r[k])))
    decreases item
  {
    var path := CurrentPath(parent, item.name);
    var b, r := Buttons(Tree(item, selected, parent)), Routes(item);
    if |Children(item)| > 0 {
      var children := Children(item);
      var inner := RoutesOf(children);
      assert b == ButtonsOf(Forest(children, selected, path)) by {
        assert Tree(item, selected, parent) == Folder(item.name, Forest(children, selected, path));
      }
      assert r == Prepend(item.name, inner);
      ForestButtons(children, selected, path);
      forall k | 0 <= k < |b|
        ensures b[k] == FileButton(Last(r[k]), Extend(parent, r[k]), selected == Some(Extend(parent, r[k])))
      {
        ExtendCons(parent, item.name, inner[k]);
      }
    } else {
      assert Tree(item, selected, parent) == FileButton(item.name, path, selected == Some(path));
      ExtendCons(parent, item.name, []);
    }
  }

  lemma ExtendCons(parent: string, n: string, rest: seq<string>)
    ensures Extend(parent, [n] + rest) == Extend(CurrentPath(parent, n), rest)
    ensures |rest| > 0 ==> Last([n] + rest) == Last(rest)
  {
    assert ([n] + rest)[1..] == rest;
  }

  lemma {:induction false} ForestButtons(items: seq<TreeItem>, selected: Option<string>, parent: string)
    ensures var b, r := ButtonsOf(Forest(items, selected, parent)), RoutesOf(items);
      && |b| == |r|
      && forall k :: 0 <= k < |b| ==>
           b[k] == FileButton(Last(r[k]), Extend(parent, r[k]), selected == Some(Extend(parent, r[k])))
    decreases items
  {
    if |items| > 0 {
      var views := Forest(items, selected, parent);
      var head, tail := Buttons(Tree(items[0], selected, parent)), ButtonsOf(Forest(items[1..], selected, parent));
      var rHead, rTail := Routes(items[0]), RoutesOf(items[1..]);
      assert ButtonsOf(views) == head + tail by {
        assert views[0] == Tree(items[0], selected, parent);
        assert views[1..] == Forest(items[1..], selected, parent);
      }
      assert RoutesOf(items) == rHead + rTail;
      TreeButtons(items[0], selected, parent);
      ForestButtons(items[1..], selected, parent);
      forall k | 0 <= k < |head + tail|
        ensures (head + tail)[k] == FileButton(Last((rHead + rTail)[k]), Extend(parent, (rHead + rTail)[k]),
                                               selected == Some(Extend(parent, (rHead + rTail)[k])))
      {
        if k >= |head| {
          assert (head + tail)[k] == tail[k - |head|] && (rHead + rTail)[k] == rTail[k - |head|];
        }
      }
    }
  }

  /** Following a route of non-empty names from a path gives the names joined
      by slashes, after the path and a slash when the path is not empty. */
  lemma {:induction false} ExtendJoins(parent: string, route: seq<string>)
    requires |route| >= 1
    requires forall j :: 0 <= j < |route| ==> route[j] != ""
    ensures parent == "" ==> Extend(parent, route) == Join(route, '/')
    ensures parent != "" ==> Extend(parent, route) == parent + "/" + Join(route, '/')
    decreases |route|
  {
    if |route| > 1 {
      ExtendJoins(CurrentPath(parent, route[0]), route[1..]);
    }
  }

  /** The routes of a fully named entry consist of non-empty names. */
  lemma {:induction false} RoutesNamed(item: TreeItem)
    requires Named(item)
    ensures forall k, j :: 0 <= k < |Routes(item)| && 0 <= j < |Routes(item)[k]| ==> Routes(item)[k][j] != ""
    decreases item
  {
    if |Children(item)| > 0 {
      RoutesOfNamed(Children(item));
      var inner := RoutesOf(Children(item));
      forall k, j | 0 <= k < |Routes(item)| && 0 <= j < |Routes(item)[k]|
        ensures Routes(item)[k][j] != ""
      {
        assert Routes(item)[k] == [item.name] + inner[k];
        if j > 0 {
          assert Routes(item)[k][j] == inner[k][j - 1];
        }
      }
    }
  }

  lemma {:induction false} RoutesOfNamed(items: seq<TreeItem>)
    requires forall i :: 0 <= i < |items| ==> Named(items[i])
    ensures forall k, j :: 0 <= k < |RoutesOf(items)| && 0 <= j < |RoutesOf(items)[k]| ==> RoutesOf(items)[k][j] != ""
    decreases items
  {
    if |items| > 0 {
      RoutesNamed(items[0]);
      RoutesOfNamed(items[1..]);
    }
  }

  /** In a tree whose names are all non-empty, every button's path is the names
      from the top-level entry down to the file joined by slashes, and exactly the
      button whose path is the selected value is active. */
  lemma ViewPaths(data: seq<TreeItem>, selected: Option<string>)
    requires forall i :: 0 <= i < |data| ==> Named(data[i])
    ensures var b, r := ButtonsOf(View(data, selected)), RoutesOf(data);
      && |b| == |r|
      && forall k :: 0 <= k < |b| ==>
           b[k].FileButton? && b[k].path == Join(r[k], '/') && b[k].text == Last(r[k]) && (b[k].active <==> selected == Some(b[k].path))
  {
    ForestButtons(data, selected, "");
    RoutesOfNamed(data);
    var r := RoutesOf(data);
    forall k | 0 <= k < |r|
      ensures Extend("", r[k]) == Join(r[k], '/')
    {
      ExtendJoins("", r[k]);
    }
  }
}
