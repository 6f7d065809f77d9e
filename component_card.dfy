/**
  `ComponentCard` and `ComponentGrid`: one card per component of the list the grid is
  given, linked to its demo page when the component has one.
 */
module ComponentCard {
  import opened Wrappers
  import opened Strings
  import opened ComponentDiscovery

  datatype Footer = ViewDemo | DemoComingSoon

  /** The card's content: the class strings, the svg path, the heading, the paragraph and the footer. */
  datatype Card = Card(
    classes: string,
    iconTileClasses: string,
    iconPath: string,
    heading: string,
    text: string,
    footer: Footer)

  /** What `ComponentCard` returns: the card inside a `Link`, or the card alone. */
  datatype CardElement = Linked(href: string, card: Card) | Bare(card: Card)

  datatype KeyedCard = KeyedCard(key: string, element: CardElement)

  /** What `ComponentGrid` returns. */
  datatype GridElement =
    | EmptyMessage(message: string)
    | CardGrid(classes: string, cards: seq<KeyedCard>)

  const CardBaseClasses: string :=
    "group bg-white " +
    "rounded-xl shadow-lg " +
    "hover:shadow-xl " +
    "transition-all " +
    "duration-300 transform " +
    "hover:-translate-y-2 " +
    "cursor-pointer border-2 " +
    "border-gray-100 " +
    "hover:border-[#3B70B5]"

  const IconTilePrefix: string := "w-12 h-12 bg-gradient-to-br "
  const IconTileSuffix: string :=
    " rounded-lg flex " +
    "items-center " +
    "justify-center " +
    "group-hover:scale-110 " +
    "transition-all " +
    "duration-300 shadow-md"

  const EmptyGridMessage: string :=
    "No components found. " +
    "Add components to the " +
    "src/components/storyblok/components " +
    "directory."

  const GridClasses: string := "grid md:grid-cols-2 lg:grid-cols-3 gap-8"

  /** `ComponentCard`, with `className` left undefined as `None`. */
  function RenderCard(component: ComponentInfo, className: Option<string>): (r: CardElement)
    ensures r.Linked? <==> Truthy(component.demoPath)
    ensures r.Linked? ==> r.href == component.demoPath.value
    ensures r.card.footer == ViewDemo <==> Truthy(component.demoPath)
    ensures OccursAt(r.card.iconTileClasses, component.color, |IconTilePrefix|)
    ensures r.card.iconPath == component.icon
    ensures r.card.heading == component.displayName
    ensures r.card.text == component.description
    ensures |CardBaseClasses| <= |r.card.classes| && r.card.classes[..|CardBaseClasses|] == CardBaseClasses
    ensures EndsWith(r.card.classes, " " + className.GetOr(""))
  {
    var classes := CardBaseClasses + " " + className.GetOr("");
    var tile := IconTilePrefix + component.color + IconTileSuffix;
    assert tile[|IconTilePrefix|..|IconTilePrefix| + |component.color|] == component.color;
    assert classes[|classes| - |" " + className.GetOr("")|..] == " " + className.GetOr("");
    var card := Card(
      classes,
      tile,
      component.icon,
      component.displayName,
      component.description,
      if Truthy(component.demoPath) then ViewDemo else DemoComingSoon);
    if Truthy(component.demoPath) then Linked(component.demoPath.value, card) else Bare(card)
  }

  /** `ComponentGrid`. */
  function RenderGrid(components: seq<ComponentInfo>): (r: GridElement)
    ensures r.EmptyMessage? <==> components == []
    ensures r.EmptyMessage? ==> r.message == EmptyGridMessage
    ensures r.CardGrid? ==>
      && |r.cards| == |components|
      && forall i :: 0 <= i < |components| ==>
           r.cards[i] == KeyedCard(components[i].name, RenderCard(components[i], None))
  {
    if |components| == 0 then EmptyMessage(EmptyGridMessage)
    else CardGrid(GridClasses, seq(|components|, i requires 0 <= i < |components| =>
      KeyedCard(components[i].name, RenderCard(components[i], None))))
  }

  /** A card without `className` ends in a single space: the default "" is appended after one. */
  lemma DefaultClassNameLeavesTrailingSpace(component: ComponentInfo)
    ensures RenderCard(component, None).card.classes == RenderCard(component, Some("")).card.classes
    ensures RenderCard(component, None).card.classes == CardBaseClasses + " "
  {
  }

  /** A component list shaped like the static one links exactly its first card. */
  lemma GridLinksFirstOnly(components: seq<ComponentInfo>, href: string)
    requires |components| >= 1 && href != ""
    requires forall i :: 0 <= i < |components| ==>
      components[i].demoPath == if i == 0 then Some(href) else None
    ensures RenderGrid(components).CardGrid?
    ensures var cards := RenderGrid(components).cards;
      && |cards| == |components|
      && (forall i :: 0 <= i < |cards| ==> cards[i].key == components[i].name)
      && (forall i :: 0 <= i < |cards| ==> (cards[i].element.Linked? <==> i == 0))
      && cards[0].element.href == href
  {
  }

  /** A grid fed the static list links only its first card, CtaBanner, to "/cta-banner-demo". */
  lemma StaticGridLinksOnlyCtaBanner()
    ensures RenderGrid(StaticComponents()).CardGrid?
    ensures var cards := RenderGrid(StaticComponents()).cards;
      && |cards| == 5
      && (forall i :: 0 <= i < 5 ==> cards[i].key == MetadataNames[i])
      && (forall i :: 0 <= i < 5 ==> (cards[i].element.Linked? <==> i == 0))
      && cards[0].element.href == "/cta-banner-demo"
  {
    StaticNamesAndDemoPaths();
    GridLinksFirstOnly(StaticComponents(), "/cta-banner-demo");
  }

  /** A card whose slug names a demo directory of the app links to "/" + slug. */
  lemma FoundDemoIsLinked(name: string, slug: string, appEntries: seq<DirEntry>)
    requires !StatFails(appEntries)
    requires DirEntry(slug, Directory) in appEntries && EndsWith(slug, "-demo")
    ensures var info := Describe(name, MetadataOf(name), slug, DemoPagesFromDirectory(Entries(appEntries)));
      RenderCard(info, None) == Linked("/" + slug, RenderCard(info, None).card)
  {
    DemoPageNamesMembership(appEntries, slug);
  }

  /**
    As discovered at runtime, the CtaBanner card shows "Demo Coming Soon" next to an app
    directory that holds "cta-banner-demo" but no "tabanner-demo".
   */
  lemma DiscoveredCtaBannerCardIsBare(appEntries: seq<DirEntry>)
    requires !StatFails(appEntries)
    requires forall e :: e in appEntries ==> e.name != "tabanner-demo"
    ensures var info := Describe("CtaBanner", MetadataOf("CtaBanner"), DemoPageName("CtaBanner"), DemoPagesFromDirectory(Entries(appEntries)));
      && RenderCard(info, None).Bare?
      && RenderCard(info, None).card.footer == DemoComingSoon
  {
    CtaBannerLosesItsDemo(appEntries);
  }

  /**
    With the intended slug a component's card links to its demo page whenever the app
    directory holds it; for CtaBanner that page is "cta-banner-demo".
   */
  lemma CorrectedCardIsLinked(name: string, appEntries: seq<DirEntry>)
    requires !StatFails(appEntries)
    requires DirEntry(KebabDemoPageName(name), Directory) in appEntries
    ensures var info := Describe(name, MetadataOf(name), KebabDemoPageName(name), DemoPagesFromDirectory(Entries(appEntries)));
      RenderCard(info, None) == Linked("/" + KebabDemoPageName(name), RenderCard(info, None).card)
  {
    var slug := KebabDemoPageName(name);
    var stem := SliceFrom1(ToLowerAscii(DashBeforeCapitals(name)));
    assert slug == stem + "-demo";
    assert slug[|slug| - 5..] == "-demo";
    FoundDemoIsLinked(name, slug, appEntries);
  }
}
