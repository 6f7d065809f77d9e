/**
  Component discovery (`getAvailableComponents`, `getStaticComponents`): directory
  listings filtered into component names and demo-page names, a demo-page slug derived
  from each component name, metadata with fallbacks, and the static list used when the
  filesystem is not available.

  A directory listing is an input: the names `readdirSync` returns, each with what
  `statSync` says of it. A read that throws is `Unreadable`.
 */
module ComponentDiscovery {
  import opened Wrappers
  import opened Strings

  // ---------------------------------------------------------------------------
  // Data model

  datatype EntryKind = Directory | File | Unstattable

  datatype DirEntry = DirEntry(name: string, kind: EntryKind)

  datatype Listing = Entries(entries: seq<DirEntry>) | Unreadable

  /** `ComponentInfo`; `demoPath` is `None` for `undefined`. */
  datatype ComponentInfo = ComponentInfo(
    name: string,
    displayName: string,
    description: string,
    demoPath: Option<string>,
    icon: string,
    color: string)

  /** A row of `componentMetadata`: `ComponentInfo` without `name` and `demoPath`. */
  datatype Metadata = Metadata(displayName: string, description: string, icon: string, color: string)

  // ---------------------------------------------------------------------------
  // Constants: the brand gradient classes and the metadata table
  const PeriPeriGradient: string := "from-[#FF5E3B] to-[#e6432a]"
  const BlueAgaveGradient: string := "from-[#3B70B5] to-[#2d5a94]"
  const DinoKaleGradient: string := "from-[#00351C] to-[#002414]"
  const UbeGradient: string := "from-[#B9B1FA] to-[#a098f0]"
  const RoastedChestnutGradient: string := "from-[#822F03] to-[#5d2202]"
  const NeutralGradient: string := "from-[#F1F3F4] to-[#e1e3e4]"

  /**
    The long texts of the table, each written as a concatenation of short literals. The
    texts have no behaviour here; they are only passed through.
   */

  /** The icon path used when a component has no metadata. */
  const DefaultIcon: string :=
    "M4 16l4.586-4.586a2 " +
    "2 0 012.828 0L16 " +
    "16m-2-2l1.586-1.586a" +
    "2 2 0 012.828 0L20 " +
    "14m-6-6h.01M6 " +
    "20h12a2 2 0 " +
    "002-2V6a2 2 0 " +
    "00-2-2H6a2 2 0 00-2 " +
    "2v12a2 2 0 002 2z"

  const CtaBannerDescription: string :=
    "Production-ready " +
    "CTA Banner " +
    "component with " +
    "multiple variants: " +
    "centered text, " +
    "split layout, and " +
    "form integration. " +
    "Built for " +
    "conversion " +
    "campaigns."

  const CtaBannerIcon: string :=
    "M11 " +
    "5.882V19.24a1.76 " +
    "1.76 0 " +
    "01-3.417.592l-2.147-" +
    "6.15M18 13a3 3 0 " +
    "100-6M5.436 " +
    "13.683A4.001 4.001 " +
    "0 017 6h1.832c4.1 0 " +
    "7.625-1.234 " +
    "9.168-3v14c-1.543-1." +
    "766-5.067-3-9.168-3H" +
    "7a3.988 3.988 0 " +
    "01-1.564-.317z"

  const HeroDescription: string :=
    "Hero sections with " +
    "call-to-action " +
    "buttons and " +
    "engaging headlines " +
    "for landing pages."

  const HeroIcon: string :=
    "M7 4V2a1 1 0 " +
    "011-1h8a1 1 0 011 " +
    "1v2m4 0a2 2 0 012 " +
    "2v14a2 2 0 01-2 " +
    "2H4a2 2 0 " +
    "01-2-2V6a2 2 0 " +
    "012-2h16z"

  const FeatureDescription: string :=
    "Feature showcase " +
    "components for " +
    "highlighting " +
    "product benefits " +
    "and capabilities."

  const FeatureIcon: string :=
    "M9 12l2 2 4-4M7.835 " +
    "4.697a3.42 3.42 0 " +
    "001.946-.806 3.42 " +
    "3.42 0 014.438 0 " +
    "3.42 3.42 0 " +
    "001.946.806 3.42 " +
    "3.42 0 013.138 " +
    "3.138 3.42 3.42 0 " +
    "00.806 1.946 3.42 " +
    "3.42 0 010 4.438 " +
    "3.42 3.42 0 00-.806 " +
    "1.946 3.42 3.42 0 " +
    "01-3.138 3.138 3.42 " +
    "3.42 0 00-1.946.806 " +
    "3.42 3.42 0 " +
    "01-4.438 0 3.42 " +
    "3.42 0 " +
    "00-1.946-.806 3.42 " +
    "3.42 0 " +
    "01-3.138-3.138 3.42 " +
    "3.42 0 " +
    "00-.806-1.946 3.42 " +
    "3.42 0 010-4.438 " +
    "3.42 3.42 0 " +
    "00.806-1.946 3.42 " +
    "3.42 0 " +
    "013.138-3.138z"

  const GridDescription: string :=
    "Responsive grid " +
    "layouts for " +
    "organizing content " +
    "in structured " +
    "formats."

  const GridIcon: string :=
    "M4 6a2 2 0 " +
    "012-2h2a2 2 0 012 " +
    "2v2a2 2 0 01-2 " +
    "2H6a2 2 0 " +
    "01-2-2V6zM14 6a2 2 " +
    "0 012-2h2a2 2 0 012 " +
    "2v2a2 2 0 01-2 " +
    "2h-2a2 2 0 " +
    "01-2-2V6zM4 16a2 2 " +
    "0 012-2h2a2 2 0 012 " +
    "2v2a2 2 0 01-2 " +
    "2H6a2 2 0 " +
    "01-2-2v-2zM14 16a2 " +
    "2 0 012-2h2a2 2 0 " +
    "012 2v2a2 2 0 01-2 " +
    "2h-2a2 2 0 " +
    "01-2-2v-2z"

  const RichTextDescription: string :=
    "Rich text content " +
    "components with " +
    "formatting support " +
    "for articles and " +
    "documentation."

  const RichTextIcon: string :=
    "M4 16l4.586-4.586a2 " +
    "2 0 012.828 0L16 " +
    "16m-2-2l1.586-1.586a" +
    "2 2 0 012.828 0L20 " +
    "14m-6-6h.01M6 " +
    "20h12a2 2 0 " +
    "002-2V6a2 2 0 " +
    "00-2-2H6a2 2 0 00-2 " +
    "2v12a2 2 0 002 2z"

  /**
    The rows of `componentMetadata`. `getStaticComponents` writes the same five rows out a
    second time with identical text; the model states them once and builds both from them.
   */
  const CtaBannerMetadata: Metadata := Metadata("CTA Banner", CtaBannerDescription, CtaBannerIcon, PeriPeriGradient)
  const HeroMetadata: Metadata := Metadata("Hero", HeroDescription, HeroIcon, BlueAgaveGradient)
  const FeatureMetadata: Metadata := Metadata("Feature", FeatureDescription, FeatureIcon, DinoKaleGradient)
  const GridMetadata: Metadata := Metadata("Grid", GridDescription, GridIcon, UbeGradient)
  const RichTextMetadata: Metadata := Metadata("Rich Text", RichTextDescription, RichTextIcon, RoastedChestnutGradient)

  /** `componentMetadata`. */
  const MetadataTable: map<string, Metadata> := map[
    "CtaBanner" := CtaBannerMetadata,
    "Hero" := HeroMetadata,
    "Feature" := FeatureMetadata,
    "Grid" := GridMetadata,
    "RichText" := RichTextMetadata
  ]

  /** The names of the metadata table, in the order the source writes them. */
  const MetadataNames: seq<string> := ["CtaBanner", "Hero", "Feature", "Grid", "RichText"]

  /** A static entry: the metadata row under its name, with the given demo path. */
  function StaticEntry(name: string, m: Metadata, demoPath: Option<string>): ComponentInfo {
    ComponentInfo(name, m.displayName, m.description, demoPath, m.icon, m.color)
  }

  /** `getStaticComponents`: the list used at build time. */
  function StaticComponents(): seq<ComponentInfo> {
    [
      StaticEntry("CtaBanner", CtaBannerMetadata, Some("/cta-banner-demo")),
      StaticEntry("Hero", HeroMetadata, None),
      StaticEntry("Feature", FeatureMetadata, None),
      StaticEntry("Grid", GridMetadata, None),
      StaticEntry("RichText", RichTextMetadata, None)
    ]
  }

  /** Every text of the row is non-empty, so none of the `||` fallbacks applies. */
  predicate Filled(m: Metadata) {
    m.displayName != "" && m.description != "" && m.icon != "" && m.color != ""
  }

  lemma CtaBannerRowFilled()
    ensures Filled(CtaBannerMetadata)
  {
  }

  lemma HeroRowFilled()
    ensures Filled(HeroMetadata)
  {
  }

  lemma FeatureRowFilled()
    ensures Filled(FeatureMetadata)
  {
  }

  lemma GridRowFilled()
    ensures Filled(GridMetadata)
  {
  }

  lemma RichTextRowFilled()
    ensures Filled(RichTextMetadata)
  {
  }

  /** The table holds exactly the five names. */
  lemma MetadataKeys(name: string)
    ensures name in MetadataTable <==> name in MetadataNames
  {
  }

  /** No row of the table leaves a field to its fallback. */
  lemma MetadataRowsFilled()
    ensures forall name :: MetadataOf(name).Some? ==> Filled(MetadataOf(name).value)
  {
    forall name | MetadataOf(name).Some? ensures Filled(MetadataOf(name).value) {
      MetadataKeys(name);
      MetadataLookups();
      if name == "CtaBanner" {
        CtaBannerRowFilled();
      } else if name == "Hero" {
        HeroRowFilled();
      } else if name == "Feature" {
        FeatureRowFilled();
      } else if name == "Grid" {
        GridRowFilled();
      } else {
        RichTextRowFilled();
      }
    }
  }


  // ---------------------------------------------------------------------------
  // Scanning the components directory (`getComponentsFromDirectory`)

  /** The filter: a directory, or a name ending in ".tsx" that is not "index.ts". */
  predicate IsComponentEntry(e: DirEntry) {
    e.kind == Directory || (EndsWith(e.name, ".tsx") && e.name != "index.ts")
  }

  /** The map: `item.replace(".tsx", "")` removes the first ".tsx", wherever it is. */
  function StripTsx(name: string): (r: string)
    ensures !Contains(name, ".tsx") ==> r == name
    ensures Contains(name, ".tsx") ==> |r| == |name| - 4
  {
    ReplaceFirst(name, ".tsx", "")
  }

  /** `statSync` throws for some entry, which aborts the whole scan. */
  predicate StatFails(entries: seq<DirEntry>) {
    exists i :: 0 <= i < |entries| && entries[i].kind == Unstattable
  }

  /** What one entry contributes to the `filter(...).map(...)` chain. */
  function ComponentNameOf(e: DirEntry): seq<string> {
    if IsComponentEntry(e) then [StripTsx(e.name)] else []
  }

  /** The `filter(...).map(...)` chain over the listing. */
  function ComponentNames(entries: seq<DirEntry>): (r: seq<string>)
    ensures |r| <= |entries|
  {
    if entries == [] then [] else ComponentNameOf(entries[0]) + ComponentNames(entries[1..])
  }

  /** `getComponentsFromDirectory`: any error caught by the `try` gives the empty list. */
  function ComponentsFromDirectory(listing: Listing): seq<string> {
    match listing
    case Unreadable => []
    case Entries(entries) => if StatFails(entries) then [] else ComponentNames(entries)
  }

  // ---------------------------------------------------------------------------
  // Scanning the app directory (`getDemoPagesFromDirectory`)

  predicate IsDemoEntry(e: DirEntry) {
    e.kind == Directory && EndsWith(e.name, "-demo")
  }

  /** What one entry contributes to the `filter(...)`. */
  function DemoPageOf(e: DirEntry): seq<string> {
    if IsDemoEntry(e) then [e.name] else []
  }

  /** The `filter(...)` over the listing. */
  function DemoPageNames(entries: seq<DirEntry>): (r: seq<string>)
    ensures |r| <= |entries|
  {
    if entries == [] then [] else DemoPageOf(entries[0]) + DemoPageNames(entries[1..])
  }

  /** `getDemoPagesFromDirectory`: any error caught by the `try` gives the empty list. */
  function DemoPagesFromDirectory(listing: Listing): seq<string> {
    match listing
    case Unreadable => []
    case Entries(entries) => if StatFails(entries) then [] else DemoPageNames(entries)
  }

  // ---------------------------------------------------------------------------
  // Properties of the scans

  /** The `!== "index.ts"` test never rejects anything: no name ending in ".tsx" is "index.ts". */
  lemma IndexTsTestIsRedundant(e: DirEntry)
    ensures IsComponentEntry(e) <==> e.kind == Directory || EndsWith(e.name, ".tsx")
  {
    assert !EndsWith("index.ts", ".tsx") by {
      assert "index.ts"[4..][0] == 'x';
    }
  }

  /** The scan works entry by entry: the names of a concatenation are concatenated in order. */
  lemma {:induction false} ComponentNamesAppend(a: seq<DirEntry>, b: seq<DirEntry>)
    ensures ComponentNames(a + b) == ComponentNames(a) + ComponentNames(b)
  {
    if a == [] {
      assert a + b == b;
    } else {
      calc {
        ComponentNames(a + b);
      == { assert (a + b)[0] == a[0] && (a + b)[1..] == a[1..] + b; }
        ComponentNameOf(a[0]) + ComponentNames(a[1..] + b);
      == { ComponentNamesAppend(a[1..], b); }
        ComponentNameOf(a[0]) + (ComponentNames(a[1..]) + ComponentNames(b));
      ==
        ComponentNames(a) + ComponentNames(b);
      }
    }
  }

  /** A name is listed iff some kept entry strips to it. */
  lemma {:induction false} ComponentNamesMembership(entries: seq<DirEntry>, n: string)
    ensures n in ComponentNames(entries) <==>
      exists i :: 0 <= i < |entries| && IsComponentEntry(entries[i]) && StripTsx(entries[i].name) == n
  {
    if entries != [] {
      ComponentNamesMembership(entries[1..], n);
      if n in ComponentNames(entries[1..]) {
        var i :| 0 <= i < |entries[1..]| && IsComponentEntry(entries[1..][i]) && StripTsx(entries[1..][i].name) == n;
        assert entries[i + 1] == entries[1..][i];
      }
      if exists i :: 0 <= i < |entries| && IsComponentEntry(entries[i]) && StripTsx(entries[i].name) == n {
        var i :| 0 <= i < |entries| && IsComponentEntry(entries[i]) && StripTsx(entries[i].name) == n;
        if i > 0 {
          assert entries[1..][i - 1] == entries[i];
        }
      }
    }
  }

  /** The first ".tsx" goes, not necessarily the suffix; a directory loses one too. */
  lemma StripTsxRemovesFirstOccurrence(name: string)
    ensures IndexOf(name, ".tsx").None? ==> StripTsx(name) == name
    ensures IndexOf(name, ".tsx").Some? ==>
      var i := IndexOf(name, ".tsx").value;
      && name == name[..i] + ".tsx" + name[i + 4..]
      && StripTsx(name) == name[..i] + name[i + 4..]
      && forall j :: 0 <= j < i ==> !OccursAt(name, ".tsx", j)
  {
    if IndexOf(name, ".tsx").Some? {
      var i := IndexOf(name, ".tsx").value;
      assert name == name[..i] + name[i..i + 4] + name[i + 4..];
    }
  }

  /** A file named `stem` + ".tsx", with no dot in `stem`, is listed as the component `stem`. */
  lemma TsxFileIsKept(stem: string)
    requires !Contains(stem, ".tsx")
    ensures ComponentNames([DirEntry(stem + ".tsx", File)]) == [stem]
  {
    var n := stem + ".tsx";
    assert n[|stem|..] == ".tsx";
    assert OccursAt(n, ".tsx", |stem|);
    forall j | 0 <= j < |stem| ensures !OccursAt(n, ".tsx", j) {
      if j + 4 <= |stem| {
        assert n[j..j + 4] == stem[j..j + 4];
        assert !OccursAt(stem, ".tsx", j);
      } else {
        assert n[|stem|] == '.';
        assert ".tsx"[|stem| - j] != '.';
      }
    }
    var k := IndexOf(n, ".tsx").value;
    assert k == |stem|;
    assert StripTsx(n) == stem by {
      assert n[..k] == stem && n[k + 4..] == [];
      assert stem + "" + [] == stem;
    }
    IndexTsTestIsRedundant(DirEntry(n, File));
    assert IsComponentEntry(DirEntry(n, File));
    assert [DirEntry(n, File)][1..] == [];
  }

  /** The scan keeps "index.tsx" as the component "index"; only "index.ts" is excluded. */
  lemma IndexTsxIsKept()
    ensures ComponentNames([DirEntry("index.tsx", File)]) == ["index"]
  {
    calc {
      ComponentNames([DirEntry("index.tsx", File)]);
    == { assert "index.tsx" == "index" + ".tsx"; }
      ComponentNames([DirEntry("index" + ".tsx", File)]);
    == { FirstCharAbsent("index", ".tsx"); TsxFileIsKept("index"); }
      ["index"];
    }
  }

  /** A demo page name is listed iff the listing holds a directory of that name ending in "-demo". */
  lemma {:induction false} DemoPageNamesMembership(entries: seq<DirEntry>, n: string)
    ensures n in DemoPageNames(entries) <==> DirEntry(n, Directory) in entries && EndsWith(n, "-demo")
  {
    if entries != [] {
      DemoPageNamesMembership(entries[1..], n);
      assert entries == [entries[0]] + entries[1..];
    }
  }

  /** The demo pages keep the listing's order. */
  lemma {:induction false} DemoPageNamesAppend(a: seq<DirEntry>, b: seq<DirEntry>)
    ensures DemoPageNames(a + b) == DemoPageNames(a) + DemoPageNames(b)
  {
    if a == [] {
      assert a + b == b;
    } else {
      calc {
        DemoPageNames(a + b);
      == { assert (a + b)[0] == a[0] && (a + b)[1..] == a[1..] + b; }
        DemoPageOf(a[0]) + DemoPageNames(a[1..] + b);
      == { DemoPageNamesAppend(a[1..], b); }
        DemoPageOf(a[0]) + (DemoPageNames(a[1..]) + DemoPageNames(b));
      ==
        DemoPageNames(a) + DemoPageNames(b);
      }
    }
  }

  /** A read that throws, or a stat that throws, gives the empty list from either scan. */
  lemma ScanErrorsGiveNothing(listing: Listing)
    requires listing.Unreadable? || StatFails(listing.entries)
    ensures ComponentsFromDirectory(listing) == [] && DemoPagesFromDirectory(listing) == []
  {
  }

  // ---------------------------------------------------------------------------
  // The demo-page slug (`getAvailableComponents`)

  /** `s.replace(/([A-Z])/g, "-$1")`: a dash before every ASCII capital. */
  function DashBeforeCapitals(s: string): string {
    if s == [] then []
    else (if IsAsciiUpper(s[0]) then ['-', s[0]] else [s[0]]) + DashBeforeCapitals(s[1..])
  }

  /** `s.slice(1)`. */
  function SliceFrom1(s: string): string {
    if |s| == 0 then s else s[1..]
  }

  /** The slug as written: lower-cased first, then the capitals regex, then `slice(1)`. */
  function DemoPageName(componentName: string): string {
    SliceFrom1(DashBeforeCapitals(ToLowerAscii(componentName))) + "-demo"
  }

  lemma {:induction false} DashBeforeCapitalsWithoutCapitals(s: string)
    requires forall i :: 0 <= i < |s| ==> !IsAsciiUpper(s[i])
    ensures DashBeforeCapitals(s) == s
  {
    if s != [] {
      DashBeforeCapitalsWithoutCapitals(s[1..]);
      assert s == [s[0]] + s[1..];
    }
  }

  /**
    After `toLowerCase()` the regex finds no capital, so the slug is the lower-cased name
    without its first character, then "-demo".
   */
  lemma DemoPageNameDropsFirstLetter(componentName: string)
    ensures DemoPageName(componentName) == SliceFrom1(ToLowerAscii(componentName)) + "-demo"
  {
    DashBeforeCapitalsWithoutCapitals(ToLowerAscii(componentName));
  }

  lemma LowerCtaBanner()
    ensures ToLowerAscii("CtaBanner") == "ctabanner"
  {
    var l := ToLowerAscii("CtaBanner");
    assert l[0] == 'c' && l[3] == 'b';
    assert forall i :: 0 <= i < 9 ==> l[i] == "ctabanner"[i];
  }

  /** "CtaBanner" looks for the demo page "tabanner-demo". */
  lemma CtaBannerDemoPageName()
    ensures DemoPageName("CtaBanner") == "tabanner-demo"
  {
    calc {
      DemoPageName("CtaBanner");
    == { DemoPageNameDropsFirstLetter("CtaBanner"); }
      SliceFrom1(ToLowerAscii("CtaBanner")) + "-demo";
    == { LowerCtaBanner(); }
      SliceFrom1("ctabanner") + "-demo";
    ==
      "tabanner-demo";
    }
  }

  // ---------------------------------------------------------------------------
  // Metadata and fallbacks

  /** `componentMetadata[componentName]`, with `None` for `undefined`. */
  function MetadataOf(name: string): Option<Metadata> {
    if name in MetadataTable then Some(MetadataTable[name]) else None
  }

  /**
    One `ComponentInfo` of `getAvailableComponents`: the row looked up for the name (if
    any) and the slug to look for among the demo pages.
   */
  function Describe(name: string, metadata: Option<Metadata>, demoPageName: string, demoPages: seq<string>): (info: ComponentInfo)
    ensures info.name == name
    ensures info.demoPath == if demoPageName in demoPages then Some("/" + demoPageName) else None
    ensures metadata.None? ==>
      && info.displayName == name
      && info.description == name + " component for Storyblok"
      && info.icon == DefaultIcon
      && info.color == NeutralGradient
    ensures metadata.Some? && Filled(metadata.value) ==>
      info == StaticEntry(name, metadata.value, info.demoPath)
  {
    ComponentInfo(
      name,
      OrElse(if metadata.Some? then Some(metadata.value.displayName) else None, name),
      OrElse(if metadata.Some? then Some(metadata.value.description) else None, name + " component for Storyblok"),
      if demoPageName in demoPages then Some("/" + demoPageName) else None,
      OrElse(if metadata.Some? then Some(metadata.value.icon) else None, DefaultIcon),
      OrElse(if metadata.Some? then Some(metadata.value.color) else None, NeutralGradient))
  }

  /** `getAvailableComponents` as written. */
  function AvailableComponents(componentsDir: Listing, appDir: Listing): (r: seq<ComponentInfo>)
    ensures |r| == |ComponentsFromDirectory(componentsDir)|
    ensures forall i :: 0 <= i < |r| ==> r[i].name == ComponentsFromDirectory(componentsDir)[i]
    ensures forall i :: 0 <= i < |r| ==>
      r[i] == Describe(r[i].name, MetadataOf(r[i].name), DemoPageName(r[i].name), DemoPagesFromDirectory(appDir))
  {
    var names := ComponentsFromDirectory(componentsDir);
    var pages := DemoPagesFromDirectory(appDir);
    seq(|names|, i requires 0 <= i < |names| => Describe(names[i], MetadataOf(names[i]), DemoPageName(names[i]), pages))
  }

  /** As written, the CtaBanner entry never finds the "cta-banner-demo" page next to it. */
  lemma CtaBannerLosesItsDemo(appEntries: seq<DirEntry>)
    requires !StatFails(appEntries)
    requires forall e :: e in appEntries ==> e.name != "tabanner-demo"
    ensures Describe("CtaBanner", MetadataOf("CtaBanner"), DemoPageName("CtaBanner"), DemoPagesFromDirectory(Entries(appEntries))).demoPath == None
  {
    CtaBannerDemoPageName();
    DemoPageNamesMembership(appEntries, "tabanner-demo");
  }

  // ---------------------------------------------------------------------------
  // The evidently intended slug

  /** `name.replace(/([A-Z])/g, "-$1").toLowerCase().slice(1)` followed by "-demo". */
  function KebabDemoPageName(componentName: string): string {
    SliceFrom1(ToLowerAscii(DashBeforeCapitals(componentName))) + "-demo"
  }

  /** A capital followed by letters that are not capitals. */
  predicate IsCapitalizedWord(w: string) {
    |w| >= 1 && IsAsciiUpper(w[0]) && forall i :: 1 <= i < |w| ==> !IsAsciiUpper(w[i])
  }

  function Concat(ws: seq<string>): string {
    if ws == [] then "" else ws[0] + Concat(ws[1..])
  }

  /** Each word with a dash in front, concatenated. */
  function Dashed(ws: seq<string>): string {
    if ws == [] then "" else "-" + ws[0] + Dashed(ws[1..])
  }

  function LowerWords(ws: seq<string>): (r: seq<string>)
    ensures |r| == |ws|
  {
    if ws == [] then [] else [ToLowerAscii(ws[0])] + LowerWords(ws[1..])
  }

  lemma {:induction false} DashBeforeCapitalsAppend(a: string, b: string)
    ensures DashBeforeCapitals(a + b) == DashBeforeCapitals(a) + DashBeforeCapitals(b)
  {
    if a == [] {
      assert a + b == b;
    } else {
      assert (a + b)[0] == a[0];
      assert (a + b)[1..] == a[1..] + b;
      DashBeforeCapitalsAppend(a[1..], b);
    }
  }

  lemma {:induction false} DashBeforeWords(ws: seq<string>)
    requires forall i :: 0 <= i < |ws| ==> IsCapitalizedWord(ws[i])
    ensures DashBeforeCapitals(Concat(ws)) == Dashed(ws)
  {
    if ws != [] {
      var w := ws[0];
      DashBeforeCapitalsAppend(w, Concat(ws[1..]));
      DashBeforeCapitalsWithoutCapitals(w[1..]);
      assert DashBeforeCapitals(w) == ['-', w[0]] + w[1..];
      assert ['-', w[0]] + w[1..] == "-" + w;
      DashBeforeWords(ws[1..]);
    }
  }

  lemma ToLowerAsciiAppend(a: string, b: string)
    ensures ToLowerAscii(a + b) == ToLowerAscii(a) + ToLowerAscii(b)
  {
  }

  /** Lower-casing a capitalized word changes only its first letter. */
  lemma LowerCapitalizedWord(w: string)
    requires IsCapitalizedWord(w)
    ensures ToLowerAscii(w) == [ToLowerChar(w[0])] + w[1..]
  {
  }

  lemma {:induction false} LowerDashed(ws: seq<string>)
    ensures ToLowerAscii(Dashed(ws)) == Dashed(LowerWords(ws))
  {
    if ws != [] {
      ToLowerAsciiAppend("-" + ws[0], Dashed(ws[1..]));
      ToLowerAsciiAppend("-", ws[0]);
      assert ToLowerAscii("-") == "-";
      LowerDashed(ws[1..]);
    }
  }

  lemma {:induction false} DashedIsJoin(ws: seq<string>)
    requires |ws| >= 1
    ensures SliceFrom1(Dashed(ws)) == Join(ws, "-")
  {
    if |ws| > 1 {
      DashedIsJoin(ws[1..]);
      assert Dashed(ws[1..]) == "-" + Join(ws[1..], "-");
    }
  }

  /** The intended slug of a PascalCase name is its words, lower-cased, joined by dashes. */
  lemma KebabOfWords(ws: seq<string>)
    requires |ws| >= 1
    requires forall i :: 0 <= i < |ws| ==> IsCapitalizedWord(ws[i])
    ensures KebabDemoPageName(Concat(ws)) == Join(LowerWords(ws), "-") + "-demo"
  {
    DashBeforeWords(ws);
    LowerDashed(ws);
    DashedIsJoin(LowerWords(ws));
  }

  /** `getAvailableComponents` with the intended slug. */
  function AvailableComponentsCorrected(componentsDir: Listing, appDir: Listing): (r: seq<ComponentInfo>)
    ensures |r| == |ComponentsFromDirectory(componentsDir)|
    ensures forall i :: 0 <= i < |r| ==> r[i].name == ComponentsFromDirectory(componentsDir)[i]
    ensures forall i :: 0 <= i < |r| ==>
      r[i] == Describe(r[i].name, MetadataOf(r[i].name), KebabDemoPageName(r[i].name), DemoPagesFromDirectory(appDir))
  {
    var names := ComponentsFromDirectory(componentsDir);
    var pages := DemoPagesFromDirectory(appDir);
    seq(|names|, i requires 0 <= i < |names| => Describe(names[i], MetadataOf(names[i]), KebabDemoPageName(names[i]), pages))
  }

  /** The intended slug of a one-word name: the word with its capital lowered. */
  lemma KebabOfOneWord(w: string)
    requires IsCapitalizedWord(w)
    ensures KebabDemoPageName(w) == [ToLowerChar(w[0])] + w[1..] + "-demo"
  {
    var ws := [w];
    assert Concat(ws) == w by { assert ws[1..] == []; }
    assert LowerWords(ws) == [ToLowerAscii(w)] by { assert ws[1..] == []; }
    KebabOfWords(ws);
    LowerCapitalizedWord(w);
  }

  /** The intended slug of a two-word name: both words lowered, with a dash between. */
  lemma KebabOfTwoWords(a: string, b: string)
    requires IsCapitalizedWord(a) && IsCapitalizedWord(b)
    ensures KebabDemoPageName(a + b)
         == [ToLowerChar(a[0])] + a[1..] + "-" + [ToLowerChar(b[0])] + b[1..] + "-demo"
  {
    var ws := [a, b];
    assert ws[1..] == [b] && ws[1..][1..] == [];
    assert Concat([b]) == b by { assert b + "" == b; }
    assert Concat(ws) == a + b;
    assert LowerWords(ws) == [ToLowerAscii(a), ToLowerAscii(b)];
    assert LowerWords(ws)[1..] == [ToLowerAscii(b)];
    KebabOfWords(ws);
    LowerCapitalizedWord(a);
    LowerCapitalizedWord(b);
  }

  /** "CtaBanner" looks for "cta-banner-demo" with the intended slug. */
  lemma CtaBannerKebabDemoPageName()
    ensures KebabDemoPageName("CtaBanner") == "cta-banner-demo"
  {
    calc {
      KebabDemoPageName("CtaBanner");
    == { assert "CtaBanner" == "Cta" + "Banner"; }
      KebabDemoPageName("Cta" + "Banner");
    == { KebabOfTwoWords("Cta", "Banner"); }
      [ToLowerChar('C')] + "ta" + "-" + [ToLowerChar('B')] + "anner" + "-demo";
    ==
      "cta-banner-demo";
    }
  }

  lemma HeroKebabDemoPageName()
    ensures KebabDemoPageName("Hero") == "hero-demo"
  {
    calc {
      KebabDemoPageName("Hero");
    == { KebabOfOneWord("Hero"); }
      [ToLowerChar('H')] + "ero" + "-demo";
    ==
      "hero-demo";
    }
  }

  lemma FeatureKebabDemoPageName()
    ensures KebabDemoPageName("Feature") == "feature-demo"
  {
    calc {
      KebabDemoPageName("Feature");
    == { KebabOfOneWord("Feature"); }
      [ToLowerChar('F')] + "eature" + "-demo";
    ==
      "feature-demo";
    }
  }

  lemma GridKebabDemoPageName()
    ensures KebabDemoPageName("Grid") == "grid-demo"
  {
    calc {
      KebabDemoPageName("Grid");
    == { KebabOfOneWord("Grid"); }
      [ToLowerChar('G')] + "rid" + "-demo";
    ==
      "grid-demo";
    }
  }

  lemma RichTextKebabDemoPageName()
    ensures KebabDemoPageName("RichText") == "rich-text-demo"
  {
    calc {
      KebabDemoPageName("RichText");
    == { assert "RichText" == "Rich" + "Text"; }
      KebabDemoPageName("Rich" + "Text");
    == { KebabOfTwoWords("Rich", "Text"); }
      [ToLowerChar('R')] + "ich" + "-" + [ToLowerChar('T')] + "ext" + "-demo";
    ==
      "rich-text-demo";
    }
  }

  // ---------------------------------------------------------------------------
  // The static list

  /** Each entry of `getStaticComponents` carries its metadata row exactly. */
  lemma StaticComponentsMatchMetadata()
    ensures |StaticComponents()| == |MetadataNames| == 5
    ensures forall i :: 0 <= i < 5 ==>
      var c := StaticComponents()[i];
      && MetadataOf(c.name) == Some(Metadata(c.displayName, c.description, c.icon, c.color))
  {
    StaticNamesAndDemoPaths();
    MetadataLookups();
  }

  /** `getStaticComponents` lists the five metadata names in table order; only CtaBanner has a demo path. */
  lemma StaticNamesAndDemoPaths()
    ensures |StaticComponents()| == |MetadataNames| == 5
    ensures forall i :: 0 <= i < 5 ==> StaticComponents()[i].name == MetadataNames[i]
    ensures forall i :: 0 <= i < 5 ==>
      StaticComponents()[i].demoPath == if i == 0 then Some("/cta-banner-demo") else None
  {
  }

  /** The row each metadata name looks up. */
  lemma MetadataLookups()
    ensures MetadataOf("CtaBanner") == Some(CtaBannerMetadata)
    ensures MetadataOf("Hero") == Some(HeroMetadata)
    ensures MetadataOf("Feature") == Some(FeatureMetadata)
    ensures MetadataOf("Grid") == Some(GridMetadata)
    ensures MetadataOf("RichText") == Some(RichTextMetadata)
  {
  }

  /** The pages an app directory holding only "cta-banner-demo" offers. */
  const StaticDemoPages: seq<string> := ["cta-banner-demo"]

  /** A filled row described against the static pages, for a slug other than "cta-banner-demo". */
  lemma DescribeWithoutDemo(name: string, m: Metadata, slug: string)
    requires Filled(m)
    requires slug != "cta-banner-demo"
    ensures Describe(name, Some(m), slug, StaticDemoPages) == StaticEntry(name, m, None)
  {
  }

  /** A filled row described against the static pages with the slug "cta-banner-demo". */
  lemma DescribeWithDemo(name: string, m: Metadata)
    requires Filled(m)
    ensures Describe(name, Some(m), "cta-banner-demo", StaticDemoPages)
         == StaticEntry(name, m, Some("/cta-banner-demo"))
  {
    assert "/" + "cta-banner-demo" == "/cta-banner-demo";
  }

  lemma StaticCtaBanner()
    ensures StaticComponents()[0] == Describe("CtaBanner", MetadataOf("CtaBanner"), KebabDemoPageName("CtaBanner"), StaticDemoPages)
  {
    MetadataLookups();
    CtaBannerRowFilled();
    CtaBannerKebabDemoPageName();
    DescribeWithDemo("CtaBanner", CtaBannerMetadata);
  }

  lemma StaticHero()
    ensures StaticComponents()[1] == Describe("Hero", MetadataOf("Hero"), KebabDemoPageName("Hero"), StaticDemoPages)
  {
    calc {
      Describe("Hero", MetadataOf("Hero"), KebabDemoPageName("Hero"), StaticDemoPages);
    == { MetadataLookups(); HeroKebabDemoPageName(); }
      Describe("Hero", Some(HeroMetadata), "hero-demo", StaticDemoPages);
    == { HeroRowFilled(); DescribeWithoutDemo("Hero", HeroMetadata, "hero-demo"); }
      StaticEntry("Hero", HeroMetadata, None);
    }
  }

  lemma StaticFeature()
    ensures StaticComponents()[2] == Describe("Feature", MetadataOf("Feature"), KebabDemoPageName("Feature"), StaticDemoPages)
  {
    calc {
      Describe("Feature", MetadataOf("Feature"), KebabDemoPageName("Feature"), StaticDemoPages);
    == { MetadataLookups(); FeatureKebabDemoPageName(); }
      Describe("Feature", Some(FeatureMetadata), "feature-demo", StaticDemoPages);
    == { FeatureRowFilled(); DescribeWithoutDemo("Feature", FeatureMetadata, "feature-demo"); }
      StaticEntry("Feature", FeatureMetadata, None);
    }
  }

  lemma StaticGrid()
    ensures StaticComponents()[3] == Describe("Grid", MetadataOf("Grid"), KebabDemoPageName("Grid"), StaticDemoPages)
  {
    calc {
      Describe("Grid", MetadataOf("Grid"), KebabDemoPageName("Grid"), StaticDemoPages);
    == { MetadataLookups(); GridKebabDemoPageName(); }
      Describe("Grid", Some(GridMetadata), "grid-demo", StaticDemoPages);
    == { GridRowFilled(); DescribeWithoutDemo("Grid", GridMetadata, "grid-demo"); }
      StaticEntry("Grid", GridMetadata, None);
    }
  }

  lemma StaticRichText()
    ensures StaticComponents()[4] == Describe("RichText", MetadataOf("RichText"), KebabDemoPageName("RichText"), StaticDemoPages)
  {
    calc {
      Describe("RichText", MetadataOf("RichText"), KebabDemoPageName("RichText"), StaticDemoPages);
    == { MetadataLookups(); RichTextKebabDemoPageName(); }
      Describe("RichText", Some(RichTextMetadata), "rich-text-demo", StaticDemoPages);
    == { RichTextRowFilled(); DescribeWithoutDemo("RichText", RichTextMetadata, "rich-text-demo"); }
      StaticEntry("RichText", RichTextMetadata, None);
    }
  }

  /**
    With the intended slug, describing the metadata names against an app directory whose
    only demo page is "cta-banner-demo" gives exactly the static list.
   */
  lemma StaticComponentsAreCorrectedDiscovery()
    ensures forall i :: 0 <= i < 5 ==>
      var name := MetadataNames[i];
      StaticComponents()[i] == Describe(name, MetadataOf(name), KebabDemoPageName(name), StaticDemoPages)
  {
    forall i | 0 <= i < 5
      ensures StaticComponents()[i]
           == Describe(MetadataNames[i], MetadataOf(MetadataNames[i]), KebabDemoPageName(MetadataNames[i]), StaticDemoPages)
    {
      if i == 0 {
        assert MetadataNames[i] == "CtaBanner";
        StaticCtaBanner();
      } else if i == 1 {
        assert MetadataNames[i] == "Hero";
        StaticHero();
      } else if i == 2 {
        assert MetadataNames[i] == "Feature";
        StaticFeature();
      } else if i == 3 {
        assert MetadataNames[i] == "Grid";
        StaticGrid();
      } else {
        assert MetadataNames[i] == "RichText";
        StaticRichText();
      }
    }
  }
}
