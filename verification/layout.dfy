/** The application frame: the page heading worked out from the current path,
    and the sidebar menu built from the saved form configurations. */
module SidebarLayout {
  import opened Common
  import opened Json
  import opened Strings
  import opened FormSchema
  import RecordTable

  datatype Icon = FormIcon | TableIcon | HomeIcon

  datatype PageInfo = PageInfo(title: string, icon: Icon, description: string)

  const FormBuilderInfo: PageInfo := PageInfo("Form Builder", FormIcon, "Create and manage dynamic forms")
  const DashboardInfo: PageInfo := PageInfo("Dashboard", HomeIcon, "Welcome to Dynamic Forms")

  /** The heading of the records page of `name`. */
  function TablePageInfo(name: string): PageInfo {
    PageInfo(Capitalize(name) + " Records", TableIcon, "View and manage " + name + " data")
  }

  /** The heading of the entry page of `name`, editing or creating. */
  function EntryPageInfo(name: string, isEdit: bool): PageInfo {
    PageInfo((if isEdit then "Edit" else "Create") + " " + Capitalize(name), FormIcon,
             (if isEdit then "Update existing" else "Add new") + " " + name + " record")
  }

  /** `getCurrentPageInfo` as written: `/forms` and `/` first, then any path that
      contains `/table/` anywhere, then any path that contains `/dynamic/`. */
  function CurrentPageInfo(path: string): (info: PageInfo)
    ensures info.icon == TableIcon <==> path != "/forms" && path != "/" && Contains(path, "/table/")
    ensures info.icon == HomeIcon <==>
      path != "/forms" && path != "/" && !Contains(path, "/table/") && !Contains(path, "/dynamic/")
  {
    if path == "/forms" || path == "/" then FormBuilderInfo
    else if Contains(path, "/table/") then
      SplitContaining(path, "/table/");
      TablePageInfo(Split(path, "/table/")[1])
    else if Contains(path, "/dynamic/") then
      SplitContaining(path, "/dynamic/");
      EntryPageInfo(Split(Split(path, "/dynamic/")[1], "/")[0], |Split(path, "/")| > 3)
    else DashboardInfo
  }

  /** The heading with the two section tests anchored at the start of the path. */
  function CorrectedPageInfo(path: string): (info: PageInfo)
    ensures info.icon == TableIcon <==> path != "/forms" && path != "/" && StartsWith(path, "/table/")
    ensures info.icon == HomeIcon <==>
      path != "/forms" && path != "/" && !StartsWith(path, "/table/") && !StartsWith(path, "/dynamic/")
  {
    if path == "/forms" || path == "/" then FormBuilderInfo
    else if StartsWith(path, "/table/") then
      assert OccursAt(path, "/table/", 0);
      SplitContaining(path, "/table/");
      TablePageInfo(Split(path, "/table/")[1])
    else if StartsWith(path, "/dynamic/") then
      assert OccursAt(path, "/dynamic/", 0);
      SplitContaining(path, "/dynamic/");
      EntryPageInfo(Split(Split(path, "/dynamic/")[1], "/")[0], |Split(path, "/")| > 3)
    else DashboardInfo
  }

  /** `/forms` and `/` are the form builder; `/table/` is checked before
      `/dynamic/`; a path in neither section is the dashboard. */
  lemma FixedHeadings(path: string)
    ensures CurrentPageInfo("/forms") == FormBuilderInfo && CurrentPageInfo("/") == FormBuilderInfo
    ensures path != "/forms" && path != "/" && Contains(path, "/table/") ==> CurrentPageInfo(path).icon == TableIcon
    ensures path != "/forms" && path != "/" && !Contains(path, "/table/") && Contains(path, "/dynamic/") ==>
      CurrentPageInfo(path).icon == FormIcon
    ensures path != "/forms" && path != "/" && !Contains(path, "/table/") && !Contains(path, "/dynamic/") ==>
      CurrentPageInfo(path) == DashboardInfo
  {
  }

  /** The link target of a collection in the sidebar. */
  function TablePath(name: string): (p: string)
    ensures StartsWith(p, "/table/") && p[7..] == name
  {
    "/table/" + name
  }

  /** The slashes of an edit path are the two of `/dynamic/` and the one before the id. */
  lemma EditPathSlashes(c: string, id: string)
    requires '/' !in c && '/' !in id
    ensures forall k :: 0 <= k < |RecordTable.EditPath(c, id)| ==>
      (RecordTable.EditPath(c, id)[k] == '/' <==> k == 0 || k == 8 || k == 9 + |c|)
  {
    var p := RecordTable.EditPath(c, id);
    forall k | 0 <= k < |p|
      ensures p[k] == '/' <==> k == 0 || k == 8 || k == 9 + |c|
    {
      if k < 9 {
        assert p[k] == p[..9][k];
      } else if k < 9 + |c| {
        assert p[k] == p[9..9 + |c|][k - 9] == c[k - 9];
      } else if k > 9 + |c| {
        assert p[k] == p[10 + |c|..][k - 10 - |c|] == id[k - 10 - |c|];
      }
    }
  }

  /** Between the collection and the id there is the only slash. */
  lemma RestSlashes(c: string, id: string)
    requires '/' !in c && '/' !in id
    ensures forall k :: 0 <= k < |c + "/" + id| ==> ((c + "/" + id)[k] == '/' <==> k == |c|)
  {
    var rest := c + "/" + id;
    forall k | 0 <= k < |rest|
      ensures rest[k] == '/' <==> k == |c|
    {
      if k < |c| {
        assert rest[k] == c[k];
      } else if k > |c| {
        assert rest[k] == id[k - |c| - 1];
      }
    }
  }

  /** `<collection>/<id>` holds no `/dynamic/`, which needs two slashes. */
  lemma RestHasNoDynamic(c: string, id: string)
    requires '/' !in c && '/' !in id
    ensures !Contains(c + "/" + id, "/dynamic/")
  {
    var rest := c + "/" + id;
    RestSlashes(c, id);
    forall j | 0 <= j <= |rest|
      ensures !OccursAt(rest, "/dynamic/", j)
    {
      if j + 9 <= |rest| {
        assert rest[j..j + 9][0] == rest[j];
        assert rest[j..j + 9][8] == rest[j + 8];
      }
    }
  }

  /** The path of an entry page splits into the collection and the id. */
  lemma EditPathSplits(c: string, id: string)
    requires '/' !in c && '/' !in id
    ensures var p := RecordTable.EditPath(c, id);
      |Split(p, "/dynamic/")| >= 2 && Split(p, "/dynamic/")[1] == c + "/" + id
      && Split(Split(p, "/dynamic/")[1], "/")[0] == c
  {
    var p := RecordTable.EditPath(c, id);
    var rest := c + "/" + id;
    assert p == "/dynamic/" + rest;
    RestHasNoDynamic(c, id);
    SplitLeading("/dynamic/", rest);
    SplitWithout(rest, "/dynamic/");
    SplitAfterFree(c, '/', id);
  }

  /** The path of an entry page has four slash-separated parts. */
  lemma EditPathParts(c: string, id: string)
    requires '/' !in c && '/' !in id
    ensures |Split(RecordTable.EditPath(c, id), "/")| == 4
  {
    var t1 := c + ['/'] + id;
    SplitAfterFree(c, '/', id);
    SplitCharFree(id, '/');
    var t2 := "dynamic" + ['/'] + t1;
    SplitAfterFree("dynamic", '/', t1);
    EditPathShape(c, id);
    SplitAfterFree([], '/', t2);
  }

  lemma EditPathShape(c: string, id: string)
    ensures RecordTable.EditPath(c, id) == [] + ['/'] + ("dynamic" + ['/'] + (c + ['/'] + id))
  {
  }

  /** The path of a new-record page splits into the collection alone. */
  lemma NewPathSplits(c: string)
    requires '/' !in c
    ensures var p := RecordTable.NewPath(c);
      |Split(p, "/dynamic/")| >= 2 && Split(p, "/dynamic/")[1] == c
      && Split(Split(p, "/dynamic/")[1], "/")[0] == c
      && |Split(p, "/")| == 3
  {
    var p := RecordTable.NewPath(c);
    assert p == "/dynamic/" + c;
    AbsentChar(c, "/dynamic/", 0);
    SplitLeading("/dynamic/", c);
    SplitWithout(c, "/dynamic/");
    SplitCharFree(c, '/');
    assert p == [] + ['/'] + ("dynamic" + ['/'] + c);
    SplitAfterFree([], '/', "dynamic" + ['/'] + c);
    SplitAfterFree("dynamic", '/', c);
  }

  /** The path of a records page splits into the collection after `/table/`. */
  lemma TablePathSplits(name: string)
    requires '/' !in name
    ensures Contains(TablePath(name), "/table/")
    ensures |Split(TablePath(name), "/table/")| >= 2 && Split(TablePath(name), "/table/")[1] == name
  {
    assert OccursAt(TablePath(name), "/table/", 0);
    AbsentChar(name, "/table/", 0);
    SplitLeading("/table/", name);
    SplitWithout(name, "/table/");
  }

  /** A records page is headed with its collection's name. */
  lemma TablePageHeading(name: string)
    requires '/' !in name
    ensures CurrentPageInfo(TablePath(name)) == TablePageInfo(name)
    ensures CorrectedPageInfo(TablePath(name)) == TablePageInfo(name)
  {
    TablePathSplits(name);
  }

  /** A new-record page is headed "Create <Collection>". */
  lemma NewPageHeading(c: string)
    requires '/' !in c
    ensures CurrentPageInfo(RecordTable.NewPath(c)) == EntryPageInfo(c, false)
    ensures CorrectedPageInfo(RecordTable.NewPath(c)) == EntryPageInfo(c, false)
  {
    var p := RecordTable.NewPath(c);
    NewPathSplits(c);
    forall j | 0 <= j <= |p|
      ensures !OccursAt(p, "/table/", j)
    {
      if j + 7 <= |p| {
        assert p[j..j + 7][0] == p[j] && p[j..j + 7][6] == p[j + 6];
        if j < 9 {
          assert p[j] == p[..9][j];
        } else {
          assert p[j] == p[9..][j - 9] == c[j - 9];
        }
        if j + 6 < 9 {
          assert p[j + 6] == p[..9][j + 6];
        } else {
          assert p[j + 6] == p[9..][j - 3] == c[j - 3];
        }
      }
    }
    assert p[..9] == "/dynamic/";
    assert p[1] == 'd';
    assert OccursAt(p, "/dynamic/", 0);
  }

  /** An edit page is headed "Edit <Collection>" as written, for every
      collection except one named `table`. */
  lemma EditPageHeading(c: string, id: string)
    requires '/' !in c && '/' !in id && c != "table"
    ensures CurrentPageInfo(RecordTable.EditPath(c, id)) == EntryPageInfo(c, true)
  {
    var p := RecordTable.EditPath(c, id);
    EditPathSplits(c, id);
    EditPathParts(c, id);
    assert OccursAt(p, "/dynamic/", 0);
    EditPathHasNoTable(c, id);
  }

  /** With the corrected heading every edit page is headed "Edit <Collection>". */
  lemma CorrectedEditPageHeading(c: string, id: string)
    requires '/' !in c && '/' !in id
    ensures CorrectedPageInfo(RecordTable.EditPath(c, id)) == EntryPageInfo(c, true)
  {
    var p := RecordTable.EditPath(c, id);
    EditPathSplits(c, id);
    EditPathParts(c, id);
    CorrectedEntryHeading(p);
  }

  /** With the corrected heading, a path under `/dynamic/` is an entry page. */
  lemma CorrectedEntryHeading(p: string)
    requires StartsWith(p, "/dynamic/")
    ensures Contains(p, "/dynamic/") && |Split(p, "/dynamic/")| >= 2
    ensures CorrectedPageInfo(p) == EntryPageInfo(Split(Split(p, "/dynamic/")[1], "/")[0], |Split(p, "/")| > 3)
  {
    assert |p| >= 9;
    assert !StartsWith(p, "/table/") by {
      assert p[..7][1] == p[..9][1] == 'd';
    }
    assert OccursAt(p, "/dynamic/", 0);
    SplitContaining(p, "/dynamic/");
  }

  /** Only the collection named `table` puts `/table/` into an edit path. */
  lemma EditPathHasNoTable(c: string, id: string)
    requires '/' !in c && '/' !in id && c != "table"
    ensures !Contains(RecordTable.EditPath(c, id), "/table/")
  {
    var p := RecordTable.EditPath(c, id);
    EditPathSlashes(c, id);
    forall j | 0 <= j <= |p|
      ensures !OccursAt(p, "/table/", j)
    {
      if j + 7 <= |p| {
        assert p[j..j + 7][0] == p[j] && p[j..j + 7][6] == p[j + 6];
        if j == 0 {
          assert p[6] == p[..9][6] == 'i';
        } else if j == 8 && |c| == 5 {
          assert p[8..15][1..6] == p[9..14] == c;
        }
      }
    }
  }

  /** As written, the edit page of a collection named `table` is headed as the
      records page of the record's id: `/dynamic/table/<id>` contains `/table/`. */
  lemma EditOfTableCollection(id: string)
    requires '/' !in id
    ensures CurrentPageInfo(RecordTable.EditPath("table", id)) == TablePageInfo(id)
    ensures CurrentPageInfo(RecordTable.EditPath("table", id)) != EntryPageInfo("table", true)
  {
    var p := RecordTable.EditPath("table", id);
    assert p == "/dynamic" + "/table/" + id;
    assert OccursAt(p, "/table/", 8);
    forall j | 0 <= j < 8
      ensures !OccursAt(p, "/table/", j)
    {
      assert p[j..j + 7][0] == p[j] && p[j..j + 7][6] == p[j + 6];
      assert p[..9] == "/dynamic/";
      assert p[j] == p[..9][j] && p[j + 6] == p[..15][j + 6];
    }
    SplitFirst(p, "/table/", 8);
    assert p[..8] == "/dynamic" && p[15..] == id;
    AbsentChar(id, "/table/", 0);
    SplitWithout(id, "/table/");
  }

  /** A collection as the sidebar sees it: its name and, if the server sent one,
      its record count. */
  datatype Collection = Collection(name: string, recordCount: Option<int>)

  datatype MenuItem =
    | Link(key: string, caption: string, badge: Option<int>)
    | Divider
    | Header(key: string, caption: string, disabled: bool)

  const FormsItem: MenuItem := Link("/forms", "Form Builder", None)
  const CollectionsHeader: MenuItem := Header("collections-header", "Collections", true)

  /** `col.recordCount || 0`: a missing or zero count shows as 0. */
  function Badge(col: Collection): (n: int)
    ensures col.recordCount.None? ==> n == 0
    ensures col.recordCount.Some? ==> n == col.recordCount.value
  {
    col.recordCount.GetOr(0)
  }

  function CollectionItem(col: Collection): MenuItem {
    Link(TablePath(col.name), col.name, Some(Badge(col)))
  }

  /** The reference for `getMenuItems`. */
  function Menu(cols: seq<Collection>): (items: seq<MenuItem>)
    ensures |items| == |cols| + (if |cols| > 0 then 3 else 1)
    ensures items[0] == FormsItem
  {
    [FormsItem]
      + (if |cols| > 0 then [Divider, CollectionsHeader] else [])
      + CollectionItems(cols)
  }

  function CollectionItems(cols: seq<Collection>): (items: seq<MenuItem>)
    ensures |items| == |cols|
    ensures forall i :: 0 <= i < |cols| ==> items[i] == CollectionItem(cols[i])
  {
    seq(|cols|, i requires 0 <= i < |cols| => CollectionItem(cols[i]))
  }

  /** The menu starts with the form-builder item, and with no collections has only
      that item; otherwise a divider, a disabled header and one `/table/<name>`
      link per collection follow, in order. */
  lemma MenuShape(cols: seq<Collection>)
    ensures Menu(cols)[0] == FormsItem
    ensures |cols| == 0 ==> Menu(cols) == [FormsItem]
    ensures |cols| > 0 ==> (|Menu(cols)| == |cols| + 3 && Menu(cols)[1] == Divider
      && Menu(cols)[2].Header? && Menu(cols)[2].disabled)
    ensures |cols| > 0 ==> forall i :: 0 <= i < |cols| ==>
      Menu(cols)[i + 3] == Link("/table/" + cols[i].name, cols[i].name, Some(Badge(cols[i])))
  {
  }

  /** Following any sidebar link leads to a page whose heading names it: the
      form builder, or the records page of that collection. */
  lemma MenuLinksHeaded(cols: seq<Collection>)
    requires forall i :: 0 <= i < |cols| ==> '/' !in cols[i].name
    ensures forall k :: 0 <= k < |Menu(cols)| && Menu(cols)[k].Link? ==>
      CurrentPageInfo(Menu(cols)[k].key) == FormBuilderInfo
      || exists i :: 0 <= i < |cols| && CurrentPageInfo(Menu(cols)[k].key) == TablePageInfo(cols[i].name)
  {
    var m := Menu(cols);
    forall k | 0 <= k < |m| && m[k].Link?
      ensures CurrentPageInfo(m[k].key) == FormBuilderInfo
        || exists i :: 0 <= i < |cols| && CurrentPageInfo(m[k].key) == TablePageInfo(cols[i].name)
    {
      if k > 0 {
        var i := k - 3;
        assert m[k] == CollectionItem(cols[i]);
        TablePageHeading(cols[i].name);
      }
    }
  }

  class Sidebar {
    /** The collections listed, from the saved configurations. */
    var collections: seq<Collection>

    constructor ()
      ensures collections == []
    {
      collections := [];
    }

    /** `fetchCollections`: one entry per saved configuration, in the server's
        order (a configuration has no record count); a failed request leaves
        the list empty. */
    method FetchCollections(response: Option<seq<FormConfig>>)
      modifies this
      ensures response.None? ==> collections == []
      ensures response.Some? ==> (|collections| == |response.value|
        && forall i :: 0 <= i < |collections| ==>
             collections[i] == Collection(response.value[i].collectionName, None))
    {
      if response.None? {
        collections := [];
      } else {
        var configs := response.value;
        collections := seq(|configs|, i requires 0 <= i < |configs| => Collection(configs[i].collectionName, None));
      }
    }

    /** `getMenuItems`: start from the form-builder item and push the rest. */
    method MenuItems() returns (items: seq<MenuItem>)
      ensures items == Menu(collections)
    {
      var cols := collections;
      items := [FormsItem];
      if |cols| > 0 {
        items := items + [Divider];
        items := items + [CollectionsHeader];
      }
      var head := items;
      var i := 0;
      while i < |cols|
        invariant 0 <= i <= |cols|
        invariant items == head + CollectionItems(cols[..i])
      {
        assert cols[..i + 1] == cols[..i] + [cols[i]];
        assert CollectionItems(cols[..i + 1]) == CollectionItems(cols[..i]) + [CollectionItem(cols[i])];
        items := items + [CollectionItem(cols[i])];
        i := i + 1;
      }
      assert cols[..i] == cols;
    }
  }

  /** Every collection fetched from the server shows a badge of 0. */
  lemma FetchedBadgesZero(configs: seq<FormConfig>, cols: seq<Collection>)
    requires |cols| == |configs|
    requires forall i :: 0 <= i < |cols| ==> cols[i] == Collection(configs[i].collectionName, None)
    ensures forall k :: 3 <= k < |Menu(cols)| ==> Menu(cols)[k].badge == Some(0)
  {
  }
}
