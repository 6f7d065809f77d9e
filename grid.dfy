/** The client Grid block: its `classNames` computation and one keyed child per item. */
module Grid {
  import opened Wrappers
  import opened Strings
  import opened Classnames
  import JsObject

  /** A nested content block; only `_uid` and `component` are read here. */
  datatype GridItem = GridItem(uid: Option<string>, component: Option<string>)

  /** The React key of a child: the item's `_uid`, or its index when `_uid` is falsy. */
  datatype ChildKey = UidKey(uid: string) | IndexKey(index: nat)

  /** The Grid's content block; `None` is an absent (`undefined`) field. */
  datatype GridBlok = GridBlok(
    columns: Option<int>,
    gap: Option<string>,
    items: seq<GridItem>,
    responsive: Option<bool>)

  datatype GridChild = GridChild(key: ChildKey, blok: GridItem)

  /** What the grid renders: the `<div>` classes and its children in order. */
  datatype GridView = GridView(classes: seq<string>, children: seq<GridChild>)

  /** The class `grid-cols-${columns}` of the non-responsive grid. */
  function FixedColumns(columns: int): (k: string)
    ensures |k| > 10 && k[..10] == "grid-cols-"
    ensures k[10..] == IntToString(columns)
  {
    "grid-cols-" + IntToString(columns)
  }

  /** The column entries of the class object, in the order the literal writes them. */
  function ColumnConditions(columns: int, responsive: bool): seq<(string, bool)> {
    [("grid-cols-1", !responsive),
     ("grid-cols-1 md:grid-cols-2 lg:grid-cols-3", responsive && columns == 3),
     ("grid-cols-1 md:grid-cols-2", responsive && columns == 2),
     ("grid-cols-1 md:grid-cols-4", responsive && columns == 4),
     (FixedColumns(columns), !responsive)]
  }

  /** The gap entries of the class object. */
  function GapConditions(gap: string): seq<(string, bool)> {
    [("gap-4", gap == "sm"), ("gap-8", gap == "md"), ("gap-12", gap == "lg")]
  }

  /** The column classes a grid gets, stated case by case. */
  function ColumnClasses(columns: int, responsive: bool): seq<string> {
    if !responsive then
      (if columns == 1 then ["grid-cols-1"] else ["grid-cols-1", FixedColumns(columns)])
    else if columns == 3 then ["grid-cols-1 md:grid-cols-2 lg:grid-cols-3"]
    else if columns == 2 then ["grid-cols-1 md:grid-cols-2"]
    else if columns == 4 then ["grid-cols-1 md:grid-cols-4"]
    else []
  }

  /** The gap class a grid gets: none for a gap other than "sm", "md" and "lg". */
  function GapClasses(gap: string): seq<string> {
    if gap == "sm" then ["gap-4"]
    else if gap == "md" then ["gap-8"]
    else if gap == "lg" then ["gap-12"]
    else []
  }

  /** `grid-cols-${columns}` is none of the other keys, except "grid-cols-1" for one column. */
  lemma FixedColumnsKey(columns: int)
    ensures FixedColumns(columns) == "grid-cols-1" <==> columns == 1
    ensures FixedColumns(columns) !in ["grid-cols-1 md:grid-cols-2 lg:grid-cols-3",
      "grid-cols-1 md:grid-cols-2", "grid-cols-1 md:grid-cols-4", "gap-4", "gap-8", "gap-12"]
  {
    IntToStringIsOne(columns);
    NumeralKey(IntToString(columns));
  }

  /** "grid-cols-" followed by a numeral meets another key of the object only as "grid-cols-1". */
  lemma NumeralKey(s: string)
    requires |s| >= 1 && forall i :: 0 < i < |s| ==> IsDigit(s[i])
    ensures "grid-cols-" + s == "grid-cols-1" <==> s == "1"
    ensures "grid-cols-" + s !in ["grid-cols-1 md:grid-cols-2 lg:grid-cols-3",
      "grid-cols-1 md:grid-cols-2", "grid-cols-1 md:grid-cols-4", "gap-4", "gap-8", "gap-12"]
  {
    var k := "grid-cols-" + s;
    assert k[10..] == s;
    NotWideKey(s, "grid-cols-1 md:grid-cols-2 lg:grid-cols-3");
    NotWideKey(s, "grid-cols-1 md:grid-cols-2");
    NotWideKey(s, "grid-cols-1 md:grid-cols-4");
    assert k[1] == 'r';
    assert k != "gap-4" && k != "gap-8" && k != "gap-12" by {
      assert "gap-4"[1] == 'a' && "gap-8"[1] == 'a' && "gap-12"[1] == 'a';
    }
  }

  /** A key with a space after "grid-cols-1" is not "grid-cols-" and a numeral. */
  lemma NotWideKey(s: string, w: string)
    requires |s| >= 1 && forall i :: 0 < i < |s| ==> IsDigit(s[i])
    requires |w| > 11 && w[11] == ' '
    ensures "grid-cols-" + s != w
  {
    var k := "grid-cols-" + s;
    if |k| > 11 {
      assert k[11] == s[1];
    }
  }

  /** The `classNames` call of the grid: "sb-grid", "grid", the column classes, the gap class. */
  function GridClasses(columns: int, gap: string, responsive: bool): (r: seq<string>)
    ensures r == ["sb-grid", "grid"] + ColumnClasses(columns, responsive) + GapClasses(gap)
  {
    var cols := ColumnConditions(columns, responsive);
    var gaps := GapConditions(gap);
    var args := Tokens(["sb-grid", "grid"]) + [Conditions(cols + gaps)];
    GridClassesProof(columns, gap, responsive);
    ClassNames(args)
  }

  lemma GridClassesProof(columns: int, gap: string, responsive: bool)
    ensures ClassNames(Tokens(["sb-grid", "grid"]) + [Conditions(ColumnConditions(columns, responsive) + GapConditions(gap))])
         == ["sb-grid", "grid"] + ColumnClasses(columns, responsive) + GapClasses(gap)
  {
    var pairs := ColumnConditions(columns, responsive) + GapConditions(gap);
    calc {
      ClassNames(Tokens(["sb-grid", "grid"]) + [Conditions(pairs)]);
    == { TokensThenLiteral(["sb-grid", "grid"], pairs); }
      ["sb-grid", "grid"] + Selected(JsObject.Literal(pairs));
    == { if columns == 1 { OneColumnObject(responsive, gap); } else { DistinctColumnObject(columns, responsive, gap); } }
      ["sb-grid", "grid"] + (ColumnClasses(columns, responsive) + GapClasses(gap));
    }
  }

  /** The true keys of the column entries, when "grid-cols-1" is not written twice over. */
  lemma ColumnSelection(columns: int, responsive: bool)
    requires columns != 1 || responsive
    ensures Selected(ColumnConditions(columns, responsive)) == ColumnClasses(columns, responsive)
  {
    var c := ColumnConditions(columns, responsive);
    Selected5(c[0], c[1], c[2], c[3], c[4]);
  }

  lemma GapSelection(gap: string)
    ensures Selected(GapConditions(gap)) == GapClasses(gap)
  {
    var g := GapConditions(gap);
    Selected3(g[0], g[1], g[2]);
  }

  /** Any column count but 1 makes the eight keys of the class object all different. */
  lemma DistinctColumnKeys(columns: int, responsive: bool, gap: string)
    requires columns != 1
    ensures JsObject.DistinctKeys(ColumnConditions(columns, responsive) + GapConditions(gap))
  {
    var ks := ["grid-cols-1", "grid-cols-1 md:grid-cols-2 lg:grid-cols-3",
      "grid-cols-1 md:grid-cols-2", "grid-cols-1 md:grid-cols-4", FixedColumns(columns),
      "gap-4", "gap-8", "gap-12"];
    FixedColumnsKey(columns);
    assert JsObject.Distinct(ks);
    JsObject.KeysOf(ColumnConditions(columns, responsive) + GapConditions(gap), ks);
  }

  /** Any other column count: all eight keys differ, so the object is the literal as written. */
  lemma DistinctColumnObject(columns: int, responsive: bool, gap: string)
    requires columns != 1
    ensures Selected(JsObject.Literal(ColumnConditions(columns, responsive) + GapConditions(gap)))
         == ColumnClasses(columns, responsive) + GapClasses(gap)
  {
    var cols := ColumnConditions(columns, responsive);
    var gaps := GapConditions(gap);
    DistinctColumnKeys(columns, responsive, gap);
    JsObject.LiteralOfDistinct(cols + gaps);
    SelectedAppend(cols, gaps);
    ColumnSelection(columns, responsive);
    GapSelection(gap);
  }

  /** The keys other than the repeated "grid-cols-1" are all different. */
  lemma OneColumnKeys(responsive: bool, gap: string)
    ensures var a := ColumnConditions(1, responsive)[..4];
      && JsObject.DistinctKeys(a + GapConditions(gap))
      && "grid-cols-1" in JsObject.Keys(a)
  {
    var a := ColumnConditions(1, responsive)[..4];
    var ks := ["grid-cols-1", "grid-cols-1 md:grid-cols-2 lg:grid-cols-3",
      "grid-cols-1 md:grid-cols-2", "grid-cols-1 md:grid-cols-4", "gap-4", "gap-8", "gap-12"];
    assert JsObject.Distinct(ks);
    JsObject.KeysOf(a + GapConditions(gap), ks);
    JsObject.KeysOf(a, ks[..4]);
  }

  /** One column: the object keeps "grid-cols-1" first, with the value written last. */
  lemma OneColumnLiteral(responsive: bool, gap: string)
    ensures JsObject.Literal(ColumnConditions(1, responsive) + GapConditions(gap))
         == [("grid-cols-1", !responsive)] + ColumnConditions(1, responsive)[1..4] + GapConditions(gap)
  {
    var cols := ColumnConditions(1, responsive);
    var gaps := GapConditions(gap);
    var a := cols[..4];
    FixedColumnsKey(1);
    assert cols + gaps == a + [("grid-cols-1", !responsive)] + gaps;
    OneColumnKeys(responsive, gap);
    JsObject.LiteralWithRepeat(a, "grid-cols-1", !responsive, gaps);
    assert JsObject.Assign(a, "grid-cols-1", !responsive) == [("grid-cols-1", !responsive)] + a[1..];
  }

  /** One column: the repeated key "grid-cols-1" keeps its first position. */
  lemma OneColumnObject(responsive: bool, gap: string)
    ensures Selected(JsObject.Literal(ColumnConditions(1, responsive) + GapConditions(gap)))
         == ColumnClasses(1, responsive) + GapClasses(gap)
  {
    var cols := ColumnConditions(1, responsive);
    var gaps := GapConditions(gap);
    OneColumnLiteral(responsive, gap);
    var first := [("grid-cols-1", !responsive), cols[1], cols[2], cols[3]];
    assert [("grid-cols-1", !responsive)] + cols[1..4] == first;
    SelectedAppend(first, gaps);
    Selected2(first[0], first[1]);
    Selected2(first[2], first[3]);
    assert first == [first[0], first[1]] + [first[2], first[3]];
    SelectedAppend([first[0], first[1]], [first[2], first[3]]);
    GapSelection(gap);
  }

  function ChildKeyOf(item: GridItem, index: nat): ChildKey {
    if Truthy(item.uid) then UidKey(item.uid.value) else IndexKey(index)
  }

  /** The Grid component, with its defaults: 3 columns, gap "md", responsive. */
  function Render(blok: GridBlok): (v: GridView)
    ensures v.classes == ["sb-grid", "grid"]
      + ColumnClasses(blok.columns.GetOr(3), blok.responsive.GetOr(true))
      + GapClasses(blok.gap.GetOr("md"))
    ensures |v.children| == |blok.items|
    ensures forall i :: 0 <= i < |blok.items| ==> v.children[i].blok == blok.items[i]
    ensures forall i :: 0 <= i < |blok.items| ==>
      v.children[i].key == if Truthy(blok.items[i].uid) then UidKey(blok.items[i].uid.value) else IndexKey(i)
  {
    var columns := blok.columns.GetOr(3);
    var gap := blok.gap.GetOr("md");
    var responsive := blok.responsive.GetOr(true);
    GridView(
      GridClasses(columns, gap, responsive),
      seq(|blok.items|, i requires 0 <= i < |blok.items| => GridChild(ChildKeyOf(blok.items[i], i), blok.items[i])))
  }

  /** With every layout field absent: three responsive columns and the medium gap. */
  lemma DefaultLayout(items: seq<GridItem>)
    ensures Render(GridBlok(None, None, items, None)).classes
         == ["sb-grid", "grid", "grid-cols-1 md:grid-cols-2 lg:grid-cols-3", "gap-8"]
  {
  }

  /**
    A non-responsive grid of one column: the key `grid-cols-${columns}` is the key
    "grid-cols-1" written again, so the class appears once.
   */
  lemma OneFixedColumn(gap: string)
    ensures GridClasses(1, gap, false) == ["sb-grid", "grid", "grid-cols-1"] + GapClasses(gap)
  {
  }
}
