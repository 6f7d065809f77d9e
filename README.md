# Storyblok components and component discovery — a verified model of their decision logic

The repository is a monorepo of presentational Storyblok components (CtaBanner, Hero,
Feature, Grid, RichText) rendered with Next.js/React. The client app also defines
`getAvailableComponents`, which lists the components found on disk with their metadata and
demo pages, its static counterpart `getStaticComponents`, and `ComponentGrid`, which shows
such a list as cards. The model covers these functions, not the pages that might call them.
Beneath the markup sit small, exact decision rules. This project models them in Dafny and
proves what they do:

- **Component discovery** (`ComponentDiscovery`). The directory scans are filters and maps
  over a listing. There is a slug from a component name to its demo page, a metadata table
  with `||` fallbacks, and the static list used at build time.
- **Storyblok helpers** (`StoryblokUtils`). `storyblokAsset` rewrites the asset host and
  adds `?m=WxH` through a `URLSearchParams` object. Editor detection and the content
  version work on the browser window, passed in as a parameter.
- **Component rendering rules** (`CtaBanner`, `Hero`, `Feature`, `Grid`, `RichText`,
  `ComponentCard`). Each component becomes a function from its content block to a render
  summary. The summary records the branch taken, the class entries in order, which
  optional elements appear, and the attribute values they carry.
- **Registration** (`Registration`). `registerStoryblokComponents` copies a
  name-to-component record into a fresh one, entry by entry.

Shared semantics of the JavaScript the code relies on:

- `Strings`: truthiness, `||`, `join`, `endsWith`, `includes`, `indexOf`, `replace` with a
  string pattern, ASCII `toLowerCase`, and the decimal printing of integers.
- `JsObject`: object properties in insertion order. Assignment and object literals follow
  JavaScript: a key written twice keeps its first position and takes its last value.
- `Classnames`: the `classnames` helper. Non-empty string arguments are kept. Each object
  argument adds its true keys in property order.

A class attribute is modelled as the list of entries that are joined by spaces.
Filesystem access is modelled as an input:

- A `Listing` is either the entries of a directory or `Unreadable` (the read throws).
- An entry whose `statSync` throws has the kind `Unstattable`, and any such entry makes the
  whole scan return its `catch` value.

`componentMetadata` and `getStaticComponents` write the same five rows with identical
texts. The model states each row once and builds both from it.

## Model

| member | source | states |
|---|---|---|
| ComponentDiscovery.IsComponentEntry | apps/client/src/lib/component-discovery.ts:57-71 | the filter test: a directory, or a name ending in ".tsx" other than "index.ts" |
| ComponentDiscovery.StripTsx | apps/client/src/lib/component-discovery.ts:72-75 | the map `replace(".tsx", "")`: a name without ".tsx" is unchanged; otherwise exactly four characters shorter |
| ComponentDiscovery.ComponentNames | apps/client/src/lib/component-discovery.ts:56-75 | the scan keeps at most one name per listing entry |
| ComponentDiscovery.StatFails | apps/client/src/lib/component-discovery.ts:59 | some `statSync` of the listing throws, which ends the scan in its `catch` |
| ComponentDiscovery.ComponentsFromDirectory | apps/client/src/lib/component-discovery.ts:51-80 | `getComponentsFromDirectory`: [] when the read or any stat throws; otherwise the filter-then-strip scan (membership and order in the ComponentNames lemmas) |
| ComponentDiscovery.IsDemoEntry | apps/client/src/lib/component-discovery.ts:89-91 | the demo filter test: a directory whose name ends in "-demo" |
| ComponentDiscovery.DemoPagesFromDirectory | apps/client/src/lib/component-discovery.ts:82-101 | `getDemoPagesFromDirectory`: [] when the read or any stat throws; otherwise the demo filter (membership and order in the DemoPageNames lemmas) |
| ComponentDiscovery.IndexTsTestIsRedundant | apps/client/src/lib/component-discovery.ts:60-68 | an entry is kept iff it is a directory or its name ends in ".tsx": the `!== "index.ts"` test never rejects anything |
| ComponentDiscovery.TsxFileIsKept | apps/client/src/lib/component-discovery.ts:56-75 | a file `stem.tsx` whose `stem` does not contain ".tsx" is listed as the component `stem` (so "a.b.tsx" gives "a.b") |
| ComponentDiscovery.IndexTsxIsKept | apps/client/src/lib/component-discovery.ts:60 | "index.tsx" is kept, as the component "index" |
| ComponentDiscovery.StripTsxRemovesFirstOccurrence | apps/client/src/lib/component-discovery.ts:72-75 | the first ".tsx" is removed wherever it occurs (not necessarily the suffix); a name without one is unchanged |
| ComponentDiscovery.ComponentNamesAppend | apps/client/src/lib/component-discovery.ts:56-75 | the scan works entry by entry and keeps the listing's order |
| ComponentDiscovery.ComponentNamesMembership | apps/client/src/lib/component-discovery.ts:56-75 | a name is listed iff some kept entry strips to it |
| ComponentDiscovery.DemoPageNames | apps/client/src/lib/component-discovery.ts:87-96 | the demo scan keeps at most one name per entry |
| ComponentDiscovery.DemoPageNamesMembership | apps/client/src/lib/component-discovery.ts:87-96 | a name is a demo page iff the listing holds a directory of that name ending in "-demo" |
| ComponentDiscovery.DemoPageNamesAppend | apps/client/src/lib/component-discovery.ts:87-96 | demo pages keep the listing's order |
| ComponentDiscovery.ScanErrorsGiveNothing | apps/client/src/lib/component-discovery.ts:76-79 | a read or a stat that throws gives the empty list from both scans (second scan at lines 97-100) |
| ComponentDiscovery.DashBeforeCapitals | apps/client/src/lib/component-discovery.ts:113 | `replace(/([A-Z])/g, "-$1")`: a dash before every ASCII capital |
| ComponentDiscovery.SliceFrom1 | apps/client/src/lib/component-discovery.ts:114 | `s.slice(1)`, "" for "" |
| ComponentDiscovery.DemoPageName | apps/client/src/lib/component-discovery.ts:111-114 | the slug as written: lower-case, then the capitals regex, then `slice(1)`, then "-demo" (its effect in DemoPageNameDropsFirstLetter) |
| ComponentDiscovery.DashBeforeCapitalsWithoutCapitals | apps/client/src/lib/component-discovery.ts:113 | the capitals regex leaves a string without capitals unchanged |
| ComponentDiscovery.DemoPageNameDropsFirstLetter | apps/client/src/lib/component-discovery.ts:111-114 | the slug is the lower-cased name without its first character, then "-demo" |
| ComponentDiscovery.LowerCtaBanner | apps/client/src/lib/component-discovery.ts:112 | "CtaBanner" lower-cases to "ctabanner" |
| ComponentDiscovery.CtaBannerDemoPageName | apps/client/src/lib/component-discovery.ts:111-114 | "CtaBanner" looks for the demo page "tabanner-demo" |
| ComponentDiscovery.MetadataOf | apps/client/src/lib/component-discovery.ts:108 | `componentMetadata[componentName]`, `undefined` when the name is not a key (the key set in MetadataKeys) |
| ComponentDiscovery.Describe | apps/client/src/lib/component-discovery.ts:108-126 | name kept; demoPath is "/" + slug iff the slug is a demo page; without metadata the four fallbacks; with a filled row, the row's four texts |
| ComponentDiscovery.AvailableComponents | apps/client/src/lib/component-discovery.ts:103-128 | one entry per discovered component, in order, named by it, each described with its looked-up row and the as-written slug |
| ComponentDiscovery.CtaBannerLosesItsDemo | apps/client/src/lib/component-discovery.ts:111-121 | with no "tabanner-demo" directory, the discovered CtaBanner entry has no demoPath |
| ComponentDiscovery.CtaBannerRowFilled | apps/client/src/lib/component-discovery.ts:16-21 | the CtaBanner row has four non-empty texts |
| ComponentDiscovery.HeroRowFilled | apps/client/src/lib/component-discovery.ts:22-28 | the Hero row has four non-empty texts |
| ComponentDiscovery.FeatureRowFilled | apps/client/src/lib/component-discovery.ts:29-35 | the Feature row has four non-empty texts |
| ComponentDiscovery.GridRowFilled | apps/client/src/lib/component-discovery.ts:36-41 | the Grid row has four non-empty texts |
| ComponentDiscovery.RichTextRowFilled | apps/client/src/lib/component-discovery.ts:42-48 | the RichText row has four non-empty texts |
| ComponentDiscovery.MetadataKeys | apps/client/src/lib/component-discovery.ts:15-49 | the table holds exactly the five names |
| ComponentDiscovery.MetadataLookups | apps/client/src/lib/component-discovery.ts:15-49 | each of the five names looks up its own row |
| ComponentDiscovery.MetadataRowsFilled | apps/client/src/lib/component-discovery.ts:15-49 | no row that a lookup finds leaves any field to its `||` fallback |
| ComponentDiscovery.StaticComponents | apps/client/src/lib/component-discovery.ts:131-178 | `getStaticComponents`: the five entries built from the metadata rows (their properties in the lemmas below) |
| ComponentDiscovery.StaticNamesAndDemoPaths | apps/client/src/lib/component-discovery.ts:131-178 | the static list has the five metadata names in order; only CtaBanner has a demoPath, "/cta-banner-demo" |
| ComponentDiscovery.StaticComponentsMatchMetadata | apps/client/src/lib/component-discovery.ts:131-178 | every static entry's displayName, description, icon and color are its metadata row |
| ComponentDiscovery.DescribeWithoutDemo | apps/client/src/lib/component-discovery.ts:115-126 | a filled row with a slug that is not a demo page is described as its row without demoPath |
| ComponentDiscovery.DescribeWithDemo | apps/client/src/lib/component-discovery.ts:115-126 | a filled row with the slug "cta-banner-demo" is described with demoPath "/cta-banner-demo" |
| ComponentDiscovery.KebabDemoPageName | apps/client/src/lib/component-discovery.ts:111-114 | the corrected slug: the capitals regex first, then lower-case, then `slice(1)`, then "-demo" (its effect in KebabOfWords) |
| ComponentDiscovery.DashBeforeCapitalsAppend | apps/client/src/lib/component-discovery.ts:113 | the capitals regex works character by character |
| ComponentDiscovery.DashBeforeWords | apps/client/src/lib/component-discovery.ts:113 | on PascalCase words the regex puts a dash before each word |
| ComponentDiscovery.ToLowerAsciiAppend | apps/client/src/lib/component-discovery.ts:112 | lower-casing works character by character |
| ComponentDiscovery.LowerCapitalizedWord | apps/client/src/lib/component-discovery.ts:112 | lower-casing a capitalized word changes only its first letter |
| ComponentDiscovery.LowerWords | apps/client/src/lib/component-discovery.ts:112 | lower-casing a word list keeps its length |
| ComponentDiscovery.LowerDashed | apps/client/src/lib/component-discovery.ts:111-114 | lower-casing dashed words lowers each word and keeps the dashes |
| ComponentDiscovery.DashedIsJoin | apps/client/src/lib/component-discovery.ts:114 | `slice(1)` of the dashed words is the words joined by "-" |
| ComponentDiscovery.KebabOfWords | apps/client/src/lib/component-discovery.ts:111-114 | with regex-then-lowercase, a PascalCase name maps to its lower-cased words joined by "-", then "-demo" |
| ComponentDiscovery.KebabOfOneWord | apps/client/src/lib/component-discovery.ts:111-114 | the corrected slug of a one-word name is the word with its capital lowered, then "-demo" |
| ComponentDiscovery.KebabOfTwoWords | apps/client/src/lib/component-discovery.ts:111-114 | the corrected slug of a two-word name is both words lowered with a dash between, then "-demo" |
| ComponentDiscovery.CtaBannerKebabDemoPageName | apps/client/src/lib/component-discovery.ts:111-114 | with the corrected order "CtaBanner" looks for "cta-banner-demo" |
| ComponentDiscovery.HeroKebabDemoPageName | apps/client/src/lib/component-discovery.ts:111-114 | with the corrected order "Hero" looks for "hero-demo" |
| ComponentDiscovery.FeatureKebabDemoPageName | apps/client/src/lib/component-discovery.ts:111-114 | with the corrected order "Feature" looks for "feature-demo" |
| ComponentDiscovery.GridKebabDemoPageName | apps/client/src/lib/component-discovery.ts:111-114 | with the corrected order "Grid" looks for "grid-demo" |
| ComponentDiscovery.RichTextKebabDemoPageName | apps/client/src/lib/component-discovery.ts:111-114 | with the corrected order "RichText" looks for "rich-text-demo" |
| ComponentDiscovery.AvailableComponentsCorrected | apps/client/src/lib/component-discovery.ts:103-128 | `getAvailableComponents` with the corrected slug: same length, names and row lookups |
| ComponentDiscovery.StaticCtaBanner | apps/client/src/lib/component-discovery.ts:133-141 | the static CtaBanner entry is what the corrected discovery describes next to "cta-banner-demo" |
| ComponentDiscovery.StaticHero | apps/client/src/lib/component-discovery.ts:142-150 | the static Hero entry is the corrected discovery's |
| ComponentDiscovery.StaticFeature | apps/client/src/lib/component-discovery.ts:151-159 | the static Feature entry is the corrected discovery's |
| ComponentDiscovery.StaticGrid | apps/client/src/lib/component-discovery.ts:160-167 | the static Grid entry is the corrected discovery's |
| ComponentDiscovery.StaticRichText | apps/client/src/lib/component-discovery.ts:168-176 | the static RichText entry is the corrected discovery's |
| ComponentDiscovery.StaticComponentsAreCorrectedDiscovery | apps/client/src/lib/component-discovery.ts:103-178 | the static list is exactly what the corrected discovery gives for the five names next to "cta-banner-demo" |
| ComponentCard.RenderCard | apps/client/src/components/ComponentCard.tsx:9-76 | linked to demoPath iff it is non-empty; "View Demo" iff so; the tile holds the color; the icon, heading and text are copied; base classes first, `className` last |
| ComponentCard.DefaultClassNameLeavesTrailingSpace | apps/client/src/components/ComponentCard.tsx:9-12 | an absent `className` is "", so the card classes end with one space |
| ComponentCard.RenderGrid | apps/client/src/components/ComponentCard.tsx:82-100 | empty list iff only the "No components found" message; otherwise one card per component, in order, keyed by name |
| ComponentCard.GridLinksFirstOnly | apps/client/src/components/ComponentCard.tsx:70-98 | a list whose only demoPath is the first one links exactly the first card |
| ComponentCard.StaticGridLinksOnlyCtaBanner | apps/client/src/components/ComponentCard.tsx:94-98 | the static gallery has five cards keyed by the metadata names; only CtaBanner's is linked, to "/cta-banner-demo" |
| ComponentCard.FoundDemoIsLinked | apps/client/src/components/ComponentCard.tsx:70-72 | a component whose slug names a demo directory gets a card linked to "/" + slug |
| ComponentCard.DiscoveredCtaBannerCardIsBare | apps/client/src/components/ComponentCard.tsx:60-75 | with the as-written slug the discovered CtaBanner card is bare and says "Demo Coming Soon" |
| ComponentCard.CorrectedCardIsLinked | apps/client/src/components/ComponentCard.tsx:70-72 | with the corrected slug a card is linked whenever its demo directory exists |
| StoryblokUtils.FormEncode | packages/storyblok-components/src/utils/storyblok-new.ts:19 | the form encoding never emits '&' or '=' and never shortens its input |
| StoryblokUtils.FormEncodeChar | packages/storyblok-components/src/utils/storyblok-new.ts:19 | a safe character is written as itself; no encoding holds '&' or '=' |
| StoryblokUtils.PercentBytes | packages/storyblok-components/src/utils/storyblok-new.ts:19 | three characters per byte, each '%' or a hex digit |
| StoryblokUtils.Utf8Bytes | packages/storyblok-components/src/utils/storyblok-new.ts:19 | one to four bytes below 256, one exactly for ASCII |
| StoryblokUtils.FormEncodeSafe | packages/storyblok-components/src/utils/storyblok-new.ts:19 | a string of safe characters is serialised unchanged |
| StoryblokUtils.FormEncodeAppend | packages/storyblok-components/src/utils/storyblok-new.ts:19 | the encoding works character by character |
| StoryblokUtils.SearchParams.constructor | packages/storyblok-components/src/utils/storyblok-new.ts:16 | `new URLSearchParams()` holds no pair |
| StoryblokUtils.SearchParams.Set | packages/storyblok-components/src/utils/storyblok-new.ts:17 | `params.set` updates the name's pair in place or appends it, and keeps the names distinct |
| StoryblokUtils.SerializePairs | packages/storyblok-components/src/utils/storyblok-new.ts:19 | the form encoding of the pairs: "name=value" items joined by "&" |
| StoryblokUtils.SearchParams.ToString | packages/storyblok-components/src/utils/storyblok-new.ts:19 | `params.toString()`: the serialisation of the current pairs |
| StoryblokUtils.SerializeEmpty | packages/storyblok-components/src/utils/storyblok-new.ts:19 | `toString()` is empty iff there is no pair |
| StoryblokUtils.AssetBase | packages/storyblok-components/src/utils/storyblok-new.ts:12-14 | only the first "//a.storyblok.com" becomes "//img2.storyblok.com"; without one the filename is unchanged |
| StoryblokUtils.NumberTruthy | packages/storyblok-components/src/utils/storyblok-new.ts:17 | `if (width)` and `height \|\| width` on an optional integer: `undefined` and 0 are falsy |
| StoryblokUtils.Dimensions | packages/storyblok-components/src/utils/storyblok-new.ts:17 | the value `${width}x${height \|\| width}` |
| StoryblokUtils.DimensionsAreSafe | packages/storyblok-components/src/utils/storyblok-new.ts:17 | `${width}x${height \|\| width}` holds only characters the encoding keeps |
| StoryblokUtils.SingleResizeQuery | packages/storyblok-components/src/utils/storyblok-new.ts:17-19 | one safe pair serialises as "m=" + value |
| StoryblokUtils.ResizeQuery | packages/storyblok-components/src/utils/storyblok-new.ts:16-19 | after `set("m", ...)` on fresh parameters the query is "m=WxH" |
| StoryblokUtils.StoryblokAsset | packages/storyblok-components/src/utils/storyblok-new.ts:5-20 | "" for an empty filename; the rewritten base when width is 0 or absent; otherwise base + "?m=" + width + "x" + (height, or width when height is 0 or absent) |
| StoryblokUtils.IsStoryblokEditor | packages/storyblok-components/src/utils/storyblok-new.ts:23-26 | true iff a window exists and its search string contains "_storyblok" |
| StoryblokUtils.GetStoryblokVersion | packages/storyblok-components/src/utils/storyblok-new.ts:34-38 | "draft" iff a window exists and editor mode holds, "published" otherwise |
| StoryblokUtils.ServerRenderIsPublished | packages/storyblok-components/src/utils/storyblok-new.ts:34-38 | with no window the version is "published" |
| CtaBanner.BackgroundClasses | packages/storyblok-components/src/components/CtaBanner.tsx:9-15 | the `backgroundColors` table, one class group per colour |
| CtaBanner.ButtonClasses | packages/storyblok-components/src/components/CtaBanner.tsx:18-24 | the `ctaButtonStyles` table, one button class group per colour |
| CtaBanner.ButtonContrast | packages/storyblok-components/src/components/CtaBanner.tsx:18-24 | primary and secondary get a white button; white, gray and dark get "bg-blue-600 text-white hover:bg-blue-700" |
| CtaBanner.CtaAnchor | packages/storyblok-components/src/components/CtaBanner.tsx:50-57 | the CTA link of every layout: the link's url, its target or "_self", the CTA text, the base button classes then the colour's button classes |
| CtaBanner.SelectBranch | packages/storyblok-components/src/components/CtaBanner.tsx:159-167 | "split-layout" and "with-form" pick their branches; every other value picks the centred text |
| CtaBanner.SplitMedia | packages/storyblok-components/src/components/CtaBanner.tsx:84-94 | an image iff `image.filename` is non-empty, alt defaulting to the title; otherwise "Image Placeholder" |
| CtaBanner.FormColumn | packages/storyblok-components/src/components/CtaBanner.tsx:123-151 | the embed code iff it is non-empty; otherwise the placeholder form with its two inputs and "Get Started" |
| CtaBanner.Render | packages/storyblok-components/src/components/CtaBanner.tsx:26-167 | branch by variant (default "centered-text"); background class from the table (default "primary"); "text-center" iff centred, "lg:flex-row" iff split; one CTA link with url, text, target or "_self"; description iff non-empty; the side column of each branch |
| CtaBanner.AlignmentIgnored | packages/storyblok-components/src/components/CtaBanner.tsx:35 | `alignment` has no effect on the output |
| CtaBanner.Defaults | packages/storyblok-components/src/components/CtaBanner.tsx:34-44 | with no colour and no variant: the centred layout on "bg-blue-600 text-white" |
| Hero.ThemeGroup | packages/storyblok-components/src/components/Hero.tsx:40-44 | the class group each theme's condition selects |
| Hero.HeroClasses | packages/storyblok-components/src/components/Hero.tsx:34-45 | the five base classes followed by exactly the theme's group |
| Hero.CtaAnchor | packages/storyblok-components/src/components/Hero.tsx:76-85 | target "_blank" and rel "noopener noreferrer" iff linktype is "url"; otherwise "_self" and no rel |
| Hero.Render | packages/storyblok-components/src/components/Hero.tsx:23-90 | theme default "light"; background iff filename non-empty, alt defaulting to "Background"; subtitle and description iff non-empty; title always; CTA iff text and url are non-empty |
| Hero.ThemeDefaultsToLight | packages/storyblok-components/src/components/Hero.tsx:31 | an absent theme renders as "light" with "bg-white text-gray-900" |
| Feature.LayoutConditions | packages/storyblok-components/src/components/Feature.tsx:31-34 | the object literal of the layout group, key by key |
| Feature.FeatureClasses | packages/storyblok-components/src/components/Feature.tsx:21-35 | the base classes, then "text-center" iff vertical, or "flex items-center space-x-4" iff horizontal |
| Feature.LayoutSelection | packages/storyblok-components/src/components/Feature.tsx:31-34 | the layout object has distinct keys and exactly one of them is true |
| Feature.BaseClassesAreNonEmpty | packages/storyblok-components/src/components/Feature.tsx:22-30 | none of the nine fixed classes is empty, so `classNames` keeps all of them |
| Feature.FeatureClassesProof | packages/storyblok-components/src/components/Feature.tsx:21-35 | the `classNames` call gives the base classes and the layout group |
| Feature.WrapperClasses | packages/storyblok-components/src/components/Feature.tsx:41 | "mb-4", plus "mb-0" iff horizontal |
| Feature.ChooseMedia | packages/storyblok-components/src/components/Feature.tsx:43-51 | the image iff its filename is non-empty, alt defaulting to the title; otherwise the icon iff non-empty; else nothing |
| Feature.Render | packages/storyblok-components/src/components/Feature.tsx:18-62 | layout default "vertical"; wrapper iff icon or image; text container "flex-1" iff horizontal; title and description copied |
| Feature.EmptyImageRendersEmptyWrapper | packages/storyblok-components/src/components/Feature.tsx:39-51 | an image object with an empty filename and no icon opens an empty wrapper |
| Grid.FixedColumns | apps/client/src/components/storyblok/components/Grid.tsx:26 | the computed key `grid-cols-${columns}`: "grid-cols-" followed by the numeral of `columns` |
| Grid.ColumnConditions | apps/client/src/components/storyblok/components/Grid.tsx:22-26 | the column entries of the object literal, as written |
| Grid.GapConditions | apps/client/src/components/storyblok/components/Grid.tsx:27-29 | the gap entries of the object literal, as written |
| Grid.ColumnClasses | apps/client/src/components/storyblok/components/Grid.tsx:21-26 | the reference statement, case by case, of the column classes the object selects |
| Grid.GapClasses | apps/client/src/components/storyblok/components/Grid.tsx:27-29 | the reference statement of the gap class the object selects |
| Grid.GridClasses | apps/client/src/components/storyblok/components/Grid.tsx:21-30 | "sb-grid", "grid", then the column classes, then the gap class |
| Grid.GridClassesProof | apps/client/src/components/storyblok/components/Grid.tsx:21-30 | the `classNames` object evaluates to the column and gap classes case by case |
| Grid.NumeralKey | apps/client/src/components/storyblok/components/Grid.tsx:21-30 | "grid-cols-" and any numeral equals "grid-cols-1" iff the numeral is "1", and never another key of the object |
| Grid.FixedColumnsKey | apps/client/src/components/storyblok/components/Grid.tsx:26 | `grid-cols-${columns}` is "grid-cols-1" iff columns is 1, and never another key |
| Grid.ColumnSelection | apps/client/src/components/storyblok/components/Grid.tsx:22-26 | responsive: 2, 3 and 4 add their own group and other counts none; fixed: "grid-cols-1" and `grid-cols-${columns}` |
| Grid.GapSelection | apps/client/src/components/storyblok/components/Grid.tsx:27-29 | "sm", "md" and "lg" give "gap-4", "gap-8" and "gap-12"; any other gap none |
| Grid.DistinctColumnKeys | apps/client/src/components/storyblok/components/Grid.tsx:21-30 | for any column count but 1 the eight keys are distinct |
| Grid.DistinctColumnObject | apps/client/src/components/storyblok/components/Grid.tsx:21-30 | with distinct keys the object selects the column and gap classes |
| Grid.OneColumnKeys | apps/client/src/components/storyblok/components/Grid.tsx:22-29 | apart from the repeated "grid-cols-1" the keys are distinct |
| Grid.OneColumnLiteral | apps/client/src/components/storyblok/components/Grid.tsx:22-26 | for one column the repeated key keeps its first position and takes the later value |
| Grid.OneColumnObject | apps/client/src/components/storyblok/components/Grid.tsx:21-30 | for one column the object selects "grid-cols-1" at most once, then the gap class |
| Grid.ChildKeyOf | apps/client/src/components/storyblok/components/Grid.tsx:35 | `item._uid \|\| index`: the `_uid` when truthy, otherwise the index |
| Grid.Render | apps/client/src/components/storyblok/components/Grid.tsx:18-39 | defaults 3, "md", true; one child per item in order, keyed by `_uid` or by its index when `_uid` is falsy |
| Grid.DefaultLayout | apps/client/src/components/storyblok/components/Grid.tsx:19-30 | with no layout fields: the three-column responsive group and "gap-8" |
| Grid.OneFixedColumn | apps/client/src/components/storyblok/components/Grid.tsx:22-26 | a fixed one-column grid gets "grid-cols-1" once |
| RichText.Render | packages/storyblok-components/src/components/RichText.tsx:13-42 | nothing iff content is falsy; otherwise the content and the constant class string ending in "[object Object]" |
| RichText.ContainerClasses | packages/storyblok-components/src/components/RichText.tsx:18-35 | `filter(Boolean)` removes nothing, and the joined string is the four classes then "[object Object]" |
| RichText.FilterTruthy | packages/storyblok-components/src/components/RichText.tsx:34 | the filter never grows the array and keeps it whole when every item is truthy |
| RichText.Truthy | packages/storyblok-components/src/components/RichText.tsx:34 | `Boolean(item)`: "" is falsy, every object is truthy |
| RichText.ConditionPairs | packages/storyblok-components/src/components/RichText.tsx:23-32 | the object literal of the container, key by key |
| RichText.ContainerItems | packages/storyblok-components/src/components/RichText.tsx:18-33 | the array literal: the four fixed classes, then the object |
| RichText.AlignClass | packages/storyblok-components/src/components/RichText.tsx:24-26 | the class each alignment is meant to select |
| RichText.WidthClass | packages/storyblok-components/src/components/RichText.tsx:27-31 | the class each width is meant to select |
| RichText.ToJsString | packages/storyblok-components/src/components/RichText.tsx:35 | `String(item)` as `join` applies it: an object prints as "[object Object]" |
| RichText.JoinItems | packages/storyblok-components/src/components/RichText.tsx:34-35 | `items.join(sep)` over strings and objects |
| RichText.AlignAndWidthIgnored | packages/storyblok-components/src/components/RichText.tsx:14-35 | `text_align` and `max_width` never change what is rendered |
| RichText.CenteredNarrowLosesClasses | packages/storyblok-components/src/components/RichText.tsx:18-35 | a centred narrow block renders like the default one; the intended lists differ |
| RichText.AlignSelection | packages/storyblok-components/src/components/RichText.tsx:24-26 | exactly one alignment key is true |
| RichText.WidthSelection | packages/storyblok-components/src/components/RichText.tsx:27-31 | exactly one width key is true |
| RichText.ConditionKeysDistinct | packages/storyblok-components/src/components/RichText.tsx:23-32 | the eight keys of the object are distinct |
| RichText.IntendedClassesProof | packages/storyblok-components/src/components/RichText.tsx:18-32 | handed to `classNames`, the same arguments give the four classes, the alignment class and the width class |
| RichText.IntendedContainerClasses | packages/storyblok-components/src/components/RichText.tsx:18-35 | the intended list: the four fixed classes, the alignment class, the width class |
| RichText.RenderCorrected | packages/storyblok-components/src/components/RichText.tsx:13-42 | the component with the intended list: null on falsy content, the content, and the joined list |
| Registration.ComponentRecord.constructor | apps/client/src/components/storyblok/utils/index.ts:12 | the accumulator starts as the empty object `{}` |
| Registration.ComponentRecord.Put | apps/client/src/components/storyblok/utils/index.ts:9 | `acc[key] = component` updates the entry in place or appends it, and keeps the keys distinct |
| Registration.ComponentRecord.Get | apps/client/src/components/storyblok/utils/index.ts:4-14 | a read of the record, `undefined` for a missing key |
| Registration.NextKeyIsNew | apps/client/src/components/storyblok/utils/index.ts:7-10 | in a record without repeated keys each key is new when it is copied, so it is appended |
| Registration.CopyIsIdentity | apps/client/src/components/storyblok/utils/index.ts:7-13 | copying the entries one by one from `{}` reproduces them exactly |
| Registration.RegisterStoryblokComponents | apps/client/src/components/storyblok/utils/index.ts:4-14 | a fresh record with exactly the input's keys, in order, with the same values; the input is unchanged; empty input gives an empty record |
| JsObject.Lookup | apps/client/src/components/storyblok/utils/index.ts:4-14 | a property read of a record is `undefined` iff the key is absent (the read `ComponentRecord.Get` makes of the registered record) |
| JsObject.Assign | apps/client/src/components/storyblok/utils/index.ts:9 | assigning an existing key keeps the key order; a new key is appended last |
| JsObject.AssignKeepsKeysDistinct | apps/client/src/components/storyblok/utils/index.ts:9 | assignment never lets a key occur twice; `URLSearchParams.set` relies on the same (packages/storyblok-components/src/utils/storyblok-new.ts:17) |
| JsObject.AssignLookup | apps/client/src/components/storyblok/utils/index.ts:9 | after assignment the key reads the new value and every other key reads as before |
| JsObject.Literal | apps/client/src/components/storyblok/components/Grid.tsx:21-30 | an object literal evaluated left to right never holds a key twice |
| JsObject.LiteralKeys | apps/client/src/components/storyblok/components/Grid.tsx:21-30 | the object holds exactly the keys the literal writes |
| JsObject.LiteralOfDistinct | apps/client/src/components/storyblok/components/Grid.tsx:21-30 | an object literal with distinct keys builds its pairs as written |
| JsObject.LiteralWithRepeat | apps/client/src/components/storyblok/components/Grid.tsx:22-26 | a key written twice keeps its first position and takes its last value |
| Classnames.ArgClasses | packages/storyblok-components/src/components/Hero.tsx:34-45 | what one argument of `classNames` contributes |
| Classnames.ClassNames | packages/storyblok-components/src/components/Hero.tsx:34-45 | the entries `classNames(...)` emits: non-empty strings, then each object's true keys in property order |
| Classnames.ClassName | packages/storyblok-components/src/components/Hero.tsx:34-45 | the attribute string: those entries joined by single spaces |
| Classnames.ClassNamesAppend | packages/storyblok-components/src/components/Hero.tsx:34-45 | the arguments contribute one after another, in order |
| Classnames.SelectedAppend | packages/storyblok-components/src/components/Hero.tsx:40-44 | the true keys of two consecutive runs of properties are those of each run, in order |
| Classnames.SelectedMembership | packages/storyblok-components/src/components/Hero.tsx:34-45 | a key is emitted iff the object gives it the value true |
| Classnames.ClassNamesOfTokens | packages/storyblok-components/src/components/Hero.tsx:34-39 | non-empty string arguments come out unchanged and in order |
| Classnames.TokensThenLiteral | apps/client/src/components/storyblok/components/Grid.tsx:21-30 | fixed classes then one object give the classes then the object's true keys |
| Classnames.TokensThenConditions | packages/storyblok-components/src/components/Hero.tsx:34-45 | the same, for an object whose keys are distinct, read as written |
| Strings.Truthy | apps/client/src/lib/component-discovery.ts:119-125 | truthiness of an optional string: `undefined` and "" are falsy |
| Strings.OrElse | apps/client/src/lib/component-discovery.ts:119-125 | `s \|\| fallback` on an optional string |
| Strings.Join | packages/storyblok-components/src/components/RichText.tsx:35 | `parts.join(sep)` |
| Strings.EndsWith | apps/client/src/lib/component-discovery.ts:60 | `s.endsWith(suffix)` |
| Strings.Contains | packages/storyblok-components/src/utils/storyblok-new.ts:25 | `s.includes(pat)` |
| Strings.ReplaceFirst | packages/storyblok-components/src/utils/storyblok-new.ts:12-14 | `s.replace(pat, rep)` with a string pattern: the first occurrence only |
| Strings.IndexOf | packages/storyblok-components/src/utils/storyblok-new.ts:12 | found iff the pattern occurs, at its first occurrence |
| Strings.ToLowerAscii | apps/client/src/lib/component-discovery.ts:112 | the same length, each character lowered, no capital left |
| Strings.DecimalValue | apps/client/src/components/storyblok/components/Grid.tsx:26 | the number a string of decimal digits spells, the reference that the numerals are checked against |
| Strings.NatToString | apps/client/src/components/storyblok/components/Grid.tsx:26 | a non-empty string of digits, one digit iff below 10, that spells `n` |
| Strings.IntToString | apps/client/src/components/storyblok/components/Grid.tsx:26 | `${i}`: the digits of `i` for a non-negative `i`; '-' followed by the digits of `-i` for a negative one |
| Strings.IntToStringInjective | apps/client/src/components/storyblok/components/Grid.tsx:26 | different integers print differently |
| Strings.IntToStringIsOne | apps/client/src/components/storyblok/components/Grid.tsx:26 | only the integer 1 prints as "1" |

## Left out

- Filesystem access (`readdirSync`, `statSync`, `process.cwd`, `path.join`) is an input `Listing`. `console.warn` in the two `catch` blocks is dropped.
- `formatDate` is not modelled: it depends on `Date` parsing and on locale formatting.
- `window` is a parameter `Option<Window>` that holds only `location.search`.
- `URLSearchParams` is modelled only as far as `set` and `toString` on name-value pairs. JavaScript strings may hold lone surrogates; Dafny characters are Unicode scalar values, so that case is not modelled.
- StoryblokUtils.StoryblokAsset: `width` and `height` are integers. Fractional values, `NaN`, infinities and exponent notation in `${width}` are not modelled.
- Grid.Render: `columns` is an integer. A fractional count such as 2.5 (which would print "grid-cols-2.5") is not modelled.
- Foreign calls are not modelled: `storyblokEditable`, `StoryblokComponent` (a child is its block and its key), the rich-text `render` (the document passes through untouched), and Next `Link` (the `Linked` element).
- HTML injected by `dangerouslySetInnerHTML` is carried as an opaque string.
- Markup outside the class and content decisions is not modelled: `data-cy` attributes, svg attributes, inline colours, hover and CSS effects.
- Lower-casing is ASCII only. Unicode case mapping is not modelled.
- Fields typed as string unions (`backgroundColor`, `alignment`, `theme`, `layout`, `text_align`, `max_width`) are Dafny enumerations. A value outside its union, which would look up `undefined`, is not modelled. `variant` stays a string because its `switch` has a default.
- Integer-like property keys, which JavaScript enumerates before the others, do not occur in the model of objects.
- Registration.RegisterStoryblokComponents: an own key "__proto__" in the input is copied like any other key. In JavaScript, `acc["__proto__"] = component` on `{}` calls the prototype setter and creates no property, so such a record loses that key and gets a new prototype. JsObject.Assign and ComponentRecord.Put model every key as an ordinary property. No caller in the source builds such a key.
- React's expectation that keys are unique among siblings (card names, Grid `_uid`s) is not checked.
- A lookup of an inherited property name such as "toString" in `componentMetadata` is modelled as absent. The source yields an object without the four fields there, so the same fallbacks apply.
- ComponentDiscovery.Describe: for a row with some empty texts, the field-by-field `||` fallback is not stated. It holds in the body, and every row of the table is filled (MetadataRowsFilled).
- Hero.Render: `background_image.alt` is typed as a required string but is modelled as optional, since the code reads it with `||`.
- The page components, the style-guide example component, the type and colour-constant files, the configuration files and the Cypress specs are not part of this model. The colour combinations appear as constants.

## Findings

| source | as written | input that shows it | evidently intended | confidence | as-written member | corrected member |
|---|---|---|---|---|---|---|
| apps/client/src/lib/component-discovery.ts:111-114 | the name is lower-cased before `.replace(/([A-Z])/g, "-$1")`, so the regex never matches and `slice(1)` drops the first letter | "CtaBanner" gives "tabanner-demo", so `getAvailableComponents` gives the CtaBanner entry no demoPath even when the "cta-banner-demo" directory exists, and a ComponentGrid fed that list shows a bare card | insert the dashes first, then lower-case, giving "cta-banner-demo" | not executed | ComponentDiscovery.CtaBannerLosesItsDemo | ComponentDiscovery.KebabOfWords |
| packages/storyblok-components/src/components/RichText.tsx:18-35 | an object of conditions sits in an array that is `filter(Boolean).join(" ")`ed, so it prints as "[object Object]" | `text_align` "center", `max_width` "sm" gives "sb-rich-text prose prose-gray max-w-none [object Object]", the same as the defaults | the alignment and width classes, e.g. "... max-w-none text-center max-w-sm" | not executed | RichText.CenteredNarrowLosesClasses | RichText.IntendedContainerClasses |
