/** The Feature card: layout classes and the image-or-icon media rule. */
module Feature {
  import opened Wrappers
  import opened Strings
  import opened Classnames

  datatype Layout = Vertical | Horizontal

  datatype FeatureImage = FeatureImage(filename: string, alt: Option<string>)

  /** The Feature's content block; `None` is an absent (`undefined`) field. */
  datatype FeatureBlok = FeatureBlok(
    title: string,
    description: string,
    icon: Option<string>,
    image: Option<FeatureImage>,
    layout: Option<Layout>)

  datatype Media = Picture(src: string, alt: string) | IconGlyph(icon: string) | NoMedia

  datatype MediaWrapper = MediaWrapper(classes: seq<string>, media: Media)

  /** What the card renders: its classes, the optional media wrapper, the text container. */
  datatype FeatureView = FeatureView(
    classes: seq<string>,
    wrapper: Option<MediaWrapper>,
    textClass: string,
    heading: string,
    text: string)

  const BaseClasses: seq<string> := [
    "sb-feature", "p-6", "bg-white", "rounded-lg", "shadow-sm",
    "border", "border-gray-200", "hover:shadow-md", "transition-shadow"]

  /** The card's `classNames` call: the base classes, then one layout group. */
  function FeatureClasses(layout: Layout): (r: seq<string>)
    ensures r == BaseClasses + (if layout == Vertical then ["text-center"] else ["flex items-center space-x-4"])
    ensures "text-center" in r <==> layout == Vertical
    ensures "flex items-center space-x-4" in r <==> layout == Horizontal
  {
    FeatureClassesProof(layout);
    ClassNames(Tokens(BaseClasses) + [Conditions(LayoutConditions(layout))])
  }

  /** The object literal of the card's layout group. */
  function LayoutConditions(layout: Layout): seq<(string, bool)> {
    [("text-center", layout == Vertical), ("flex items-center space-x-4", layout == Horizontal)]
  }

  /** Exactly one of the two layout keys is selected. */
  lemma LayoutSelection(layout: Layout)
    ensures JsObject.DistinctKeys(LayoutConditions(layout))
    ensures Selected(LayoutConditions(layout))
         == if layout == Vertical then ["text-center"] else ["flex items-center space-x-4"]
  {
    var c := LayoutConditions(layout);
    JsObject.KeysOf(c, ["text-center", "flex items-center space-x-4"]);
    Selected2(c[0], c[1]);
  }

  lemma BaseClassesAreNonEmpty()
    ensures forall i :: 0 <= i < |BaseClasses| ==> BaseClasses[i] != ""
  {
  }

  lemma FeatureClassesProof(layout: Layout)
    ensures ClassNames(Tokens(BaseClasses) + [Conditions(LayoutConditions(layout))])
         == BaseClasses + (if layout == Vertical then ["text-center"] else ["flex items-center space-x-4"])
  {
    var c := LayoutConditions(layout);
    calc {
      ClassNames(Tokens(BaseClasses) + [Conditions(c)]);
    == { BaseClassesAreNonEmpty(); LayoutSelection(layout); TokensThenConditions(BaseClasses, c); }
      BaseClasses + Selected(c);
    == { LayoutSelection(layout); }
      BaseClasses + (if layout == Vertical then ["text-center"] else ["flex items-center space-x-4"]);
    }
  }

  /** The media wrapper's `classNames("mb-4", {"mb-0": ...})`. */
  function WrapperClasses(layout: Layout): (r: seq<string>)
    ensures r == if layout == Horizontal then ["mb-4", "mb-0"] else ["mb-4"]
  {
    var conditions := [("mb-0", layout == Horizontal)];
    JsObject.KeysOf(conditions, ["mb-0"]);
    TokensThenConditions(["mb-4"], conditions);
    ClassNames(Tokens(["mb-4"]) + [Conditions(conditions)])
  }

  /** Inside the wrapper an image with a file wins over the icon; with neither, nothing. */
  function ChooseMedia(title: string, icon: Option<string>, image: Option<FeatureImage>): (m: Media)
    ensures m.Picture? <==> image.Some? && image.value.filename != ""
    ensures m.Picture? ==> m == Picture(image.value.filename, OrElse(image.value.alt, title))
    ensures m.IconGlyph? <==> !(image.Some? && image.value.filename != "") && Truthy(icon)
    ensures m.IconGlyph? ==> m.icon == icon.value
  {
    if image.Some? && image.value.filename != "" then Picture(image.value.filename, OrElse(image.value.alt, title))
    else if Truthy(icon) then IconGlyph(icon.value)
    else NoMedia
  }

  /** The Feature component. */
  function Render(blok: FeatureBlok): (v: FeatureView)
    ensures var layout := blok.layout.GetOr(Vertical);
      && v.classes == FeatureClasses(layout)
      && (v.textClass == "flex-1" <==> layout == Horizontal)
      && (v.textClass == "" <==> layout == Vertical)
    ensures v.wrapper.Some? <==> Truthy(blok.icon) || blok.image.Some?
    ensures v.wrapper.Some? ==> v.wrapper.value.classes == WrapperClasses(blok.layout.GetOr(Vertical))
    ensures v.wrapper.Some? ==> v.wrapper.value.media == ChooseMedia(blok.title, blok.icon, blok.image)
    ensures v.heading == blok.title && v.text == blok.description
  {
    var layout := blok.layout.GetOr(Vertical);
    FeatureView(
      FeatureClasses(layout),
      if Truthy(blok.icon) || blok.image.Some?
      then Some(MediaWrapper(WrapperClasses(layout), ChooseMedia(blok.title, blok.icon, blok.image)))
      else None,
      if layout == Horizontal then "flex-1" else "",
      blok.title,
      blok.description)
  }

  /**
    An image object whose `filename` is empty still opens the media wrapper (an object is
    truthy) but puts nothing in it when there is no icon either.
   */
  lemma EmptyImageRendersEmptyWrapper(blok: FeatureBlok)
    requires blok.image.Some? && blok.image.value.filename == "" && !Truthy(blok.icon)
    ensures Render(blok).wrapper.Some? && Render(blok).wrapper.value.media == NoMedia
  {
  }
}
