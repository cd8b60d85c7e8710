/** The code pane of a fragment: which file is selected at first and after a
    click in the tree, when its code is shown, the language it is highlighted
    as, and the breadcrumb trail drawn above it. */
module FileExplorer {
  import opened Common
  import TreeView

  /** The files of a fragment, path to content, with the order in which the
      object's keys are enumerated. */
  datatype RawCollection = RawCollection(keys: seq<string>, contents: map<string, string>)

  /** The keys are the map's paths, each once. */
  type FileCollection = c: RawCollection |
    && (forall i, j :: 0 <= i < j < |c.keys| ==> c.keys[i] != c.keys[j])
    && (forall p :: p in c.contents <==> p in c.keys)
    witness RawCollection([], map[])

  // ---------------------------------------------------------------------------
  // language from extension

  /** The text after the last dot of a name (the whole name when it has no dot). */
  function LastSegment(name: string): (r: string)
    ensures '.' !in r
    ensures '.' !in name ==> r == name
  {
    if '.' !in name then SplitNoSep(name, '.'); Last(Split(name, '.'))
    else Last(Split(name, '.'))
  }

  /** The highlighting language: the lower-cased text after the last dot, or
      "text" when that is empty. */
  function LanguageFromExtension(fileName: string): (r: string)
    ensures r != ""
    ensures LastSegment(fileName) == "" ==> r == "text"
    ensures LastSegment(fileName) != "" ==> r == ToLower(LastSegment(fileName))
  {
    var extension := ToLower(LastSegment(fileName));
    if extension == "" then "text" else extension
  }

  /** A name ending in a dot and an extension is highlighted as that extension, lower-cased. */
  lemma LanguageOfExtension(base: string, extension: string)
    requires extension != "" && '.' !in extension
    ensures LanguageFromExtension(base + "." + extension) == ToLower(extension)
  {
    SplitAround(base, extension, '.');
    SplitNoSep(extension, '.');
  }

  /** A name without a dot is highlighted as the whole name, lower-cased; an empty name as "text". */
  lemma LanguageWithoutDot(name: string)
    requires '.' !in name
    ensures LanguageFromExtension(name) == if name == "" then "text" else ToLower(name)
  {
    SplitNoSep(name, '.');
  }

  /** A name ending in a dot is highlighted as "text". */
  lemma LanguageTrailingDot(base: string)
    ensures LanguageFromExtension(base + ".") == "text"
  {
    SplitAround(base, "", '.');
    assert base + "." == base + ['.'] + "";
  }

  // ---------------------------------------------------------------------------
  // breadcrumbs

  /** Up to this many path segments are shown in full. */
  const MaxSegmentsToShow := 4

  /** The content of one breadcrumb item. */
  datatype ItemContent = Muted(text: string) | Page(text: string) | EllipsisMark | Blank

  /** One element of the breadcrumb list. In the shortened trail the last segment
      is drawn as a page outside any item, followed by an empty item. */
  datatype Crumb = Item(content: ItemContent) | Separator | BarePage(text: string)

  /** The full trail of segments: every segment in an item, separated, the last
      one as the current page. */
  function FullTrail(segments: seq<string>): (r: seq<Crumb>)
    requires |segments| >= 1
    ensures |r| == 2 * |segments| - 1
    ensures forall k :: 0 <= k < |segments| - 1 ==> r[2 * k] == Item(Muted(segments[k])) && r[2 * k + 1] == Separator
    ensures r[|r| - 1] == Item(Page(segments[|segments| - 1]))
  {
    if |segments| == 1 then [Item(Page(segments[0]))]
    else [Item(Muted(segments[0])), Separator] + FullTrail(segments[1..])
  }

  /** The breadcrumb list drawn for a path: never more than seven elements, the
      first segment always first, and the last segment as the current page (in an
      item for a short path, bare before a final empty item for a long one). */
  function Breadcrumbs(filePath: string): (r: seq<Crumb>)
    ensures 1 <= |r| <= 2 * MaxSegmentsToShow - 1
    ensures var segments := Split(filePath, '/');
      |segments| > 1 ==> r[0] == Item(Muted(segments[0]))
    ensures var segments := Split(filePath, '/');
      |segments| <= MaxSegmentsToShow ==> r[|r| - 1] == Item(Page(Last(segments)))
    ensures var segments := Split(filePath, '/');
      |segments| > MaxSegmentsToShow ==> |r| == 5 && r[|r| - 2] == BarePage(Last(segments)) && r[|r| - 1] == Item(Blank)
  {
    var segments := Split(filePath, '/');
    if |segments| <= MaxSegmentsToShow then FullTrail(segments)
    else [Item(Muted(segments[0])), Separator, Item(EllipsisMark), BarePage(Last(segments)), Item(Blank)]
  }

  /** The segment texts shown, in order. */
  function Shown(crumbs: seq<Crumb>): seq<string>
  {
    if |crumbs| == 0 then []
    else
      var c := crumbs[0];
      (if c.Item? && (c.content.Muted? || c.content.Page?) then [c.content.text]
       else if c.BarePage? then [c.text]
       else []) + Shown(crumbs[1..])
  }

  /** The number of elements drawn as the current page. */
  function PageCount(crumbs: seq<Crumb>): nat
  {
    if |crumbs| == 0 then 0
    else (if crumbs[0].BarePage? || (crumbs[0].Item? && crumbs[0].content.Page?) then 1 else 0) + PageCount(crumbs[1..])
  }

  lemma {:induction false} FullTrailShowsAll(segments: seq<string>)
    requires |segments| >= 1
    ensures Shown(FullTrail(segments)) == segments
    ensures PageCount(FullTrail(segments)) == 1
  {
    if |segments| > 1 {
      FullTrailShowsAll(segments[1..]);
      var t := FullTrail(segments);
      assert t[2..] == FullTrail(segments[1..]);
      assert Shown(t) == [segments[0]] + Shown(t[1..]);
      assert Shown(t[1..]) == Shown(t[2..]);
      assert PageCount(t[1..]) == PageCount(t[2..]);
    }
  }

  /** A path of at most four segments shows all of them in order, joined back
      into the path by the separators, with only the last as the current page. */
  lemma ShortPathBreadcrumbs(filePath: string)
    requires |Split(filePath, '/')| <= MaxSegmentsToShow
    ensures Shown(Breadcrumbs(filePath)) == Split(filePath, '/')
    ensures Join(Shown(Breadcrumbs(filePath)), '/') == filePath
    ensures PageCount(Breadcrumbs(filePath)) == 1
  {
    FullTrailShowsAll(Split(filePath, '/'));
    JoinSplit(filePath, '/');
  }

  /** A longer path shows its first segment, an ellipsis and its last segment only. */
  lemma LongPathBreadcrumbs(filePath: string)
    requires |Split(filePath, '/')| > MaxSegmentsToShow
    ensures var segments := Split(filePath, '/');
      && Shown(Breadcrumbs(filePath)) == [segments[0], Last(segments)]
      && PageCount(Breadcrumbs(filePath)) == 1
      && Item(EllipsisMark) in Breadcrumbs(filePath)
  {
    var segments := Split(filePath, '/');
    var t := Breadcrumbs(filePath);
    assert t[4..] == [Item(Blank)] && Shown(t[4..]) == [] && PageCount(t[4..]) == 0;
    assert t[3..] == [BarePage(Last(segments))] + t[4..];
    assert Shown(t[3..]) == [Last(segments)] && PageCount(t[3..]) == 1;
    assert t[2..] == [Item(EllipsisMark)] + t[3..];
    assert t[1..] == [Separator] + t[2..];
    assert Shown(t[1..]) == [Last(segments)] && PageCount(t[1..]) == 1;
  }

  // ---------------------------------------------------------------------------
  // selection and the code pane

  /** The file selected when the explorer opens: the first key, or none. */
  function InitialSelection(files: FileCollection): (r: Option<string>)
    ensures r.None? <==> |files.contents| == 0
    ensures r.Some? ==> r.value == files.keys[0] && r.value in files.contents
  {
    if |files.keys| > 0 then Some(files.keys[0])
    else
      assert files.contents.Keys == {};
      None
  }

  /** Selecting a file in the tree: the selection becomes exactly that path. */
  function SelectFile(selected: Option<string>, filePath: string): (r: Option<string>)
    ensures r == Some(filePath)
  {
    Some(filePath)
  }

  /** What the right-hand pane shows. */
  datatype Pane =
    | CodePane(crumbs: seq<Crumb>, code: string, language: string)
    | Placeholder(text: string)

  const SelectPrompt := "Select a file to view its content"

  /** Code is shown when a non-empty path is selected whose content is non-empty. */
  predicate ShowsCode(files: FileCollection, selected: Option<string>)
  {
    selected.Some? && selected.value != "" && selected.value in files.contents && files.contents[selected.value] != ""
  }

  function RenderPane(files: FileCollection, selected: Option<string>): (r: Pane)
    ensures r.CodePane? <==> ShowsCode(files, selected)
    ensures r.CodePane? ==>
      && r.code == files.contents[selected.value]
      && r.language == LanguageFromExtension(selected.value)
      && r.crumbs == Breadcrumbs(selected.value)
    ensures r.Placeholder? ==> r.text == SelectPrompt
  {
    match selected
    case Some(path) =>
      if path != "" && path in files.contents && files.contents[path] != "" then
        CodePane(Breadcrumbs(path), files.contents[path], LanguageFromExtension(path))
      else Placeholder(SelectPrompt)
    case None => Placeholder(SelectPrompt)
  }

  /** A file with empty content shows the prompt even while selected. */
  lemma EmptyFileShowsPrompt(files: FileCollection, filePath: string)
    requires filePath in files.contents && files.contents[filePath] == ""
    ensures RenderPane(files, Some(filePath)) == Placeholder(SelectPrompt)
  {
  }

  /** When the explorer opens on a non-empty collection whose first file has
      content, that file's code is shown. */
  lemma InitialPaneShowsFirstFile(files: FileCollection)
    requires |files.keys| > 0 && files.keys[0] != "" && files.contents[files.keys[0]] != ""
    ensures var first := files.keys[0];
      RenderPane(files, InitialSelection(files)) == CodePane(Breadcrumbs(first), files.contents[first], LanguageFromExtension(first))
  {
  }

  /** Clicking a file button of the tree selects its path, after which that button
      is the active one and the pane shows its code when it has any. */
  lemma ClickedButtonIsShown(files: FileCollection, data: seq<TreeView.TreeItem>, selected: Option<string>, k: nat)
    requires k < |TreeView.ButtonsOf(TreeView.View(data, selected))|
    ensures var path := TreeView.ButtonsOf(TreeView.View(data, selected))[k].path;
      var after := SelectFile(selected, path);
      && k < |TreeView.ButtonsOf(TreeView.View(data, after))|
      && TreeView.ButtonsOf(TreeView.View(data, after))[k].path == path
      && TreeView.ButtonsOf(TreeView.View(data, after))[k].active
      && (path != "" && path in files.contents && files.contents[path] != "" ==>
            RenderPane(files, after).CodePane? && RenderPane(files, after).code == files.contents[path])
  {
    TreeView.ForestButtons(data, selected, "");
    var path := TreeView.ButtonsOf(TreeView.View(data, selected))[k].path;
    TreeView.ForestButtons(data, Some(path), "");
  }
}
