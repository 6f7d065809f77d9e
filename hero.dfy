/** The Hero section: theme classes, the optional background image, texts and CTA link. */
module Hero {
  import opened Wrappers
  import opened Strings
  import opened Classnames

  datatype Theme = Light | Dark | Brand

  datatype BackgroundImage = BackgroundImage(filename: string, alt: Option<string>)

  datatype CtaLink = CtaLink(url: string, linktype: string)

  /** The Hero's content block; `None` is an absent (`undefined`) field. */
  datatype HeroBlok = HeroBlok(
    title: string,
    subtitle: Option<string>,
    description: Option<string>,
    backgroundImage: Option<BackgroundImage>,
    ctaText: Option<string>,
    ctaLink: Option<CtaLink>,
    theme: Option<Theme>)

  datatype Image = Image(src: string, alt: string)

  datatype Anchor = Anchor(href: string, text: string, target: string, rel: Option<string>)

  /** What the section renders: the `<section>` classes and the elements that appear, in order. */
  datatype HeroView = HeroView(
    classes: seq<string>,
    background: Option<Image>,
    subtitle: Option<string>,
    heading: string,
    description: Option<string>,
    cta: Option<Anchor>)

  const BaseClasses: seq<string> := ["sb-hero", "relative", "overflow-hidden", "py-20", "px-4"]

  /** The colour group of each theme. */
  function ThemeGroup(theme: Theme): string {
    match theme
    case Light => "bg-white text-gray-900"
    case Dark => "bg-gray-900 text-white"
    case Brand => "bg-blue-600 text-white"
  }

  /** The `classNames` call of the section: the base classes, then exactly one theme group. */
  function HeroClasses(theme: Theme): (r: seq<string>)
    ensures r == BaseClasses + [ThemeGroup(theme)]
  {
    var conditions := [
      ("bg-white text-gray-900", theme == Light),
      ("bg-gray-900 text-white", theme == Dark),
      ("bg-blue-600 text-white", theme == Brand)];
    JsObject.KeysOf(conditions, ["bg-white text-gray-900", "bg-gray-900 text-white", "bg-blue-600 text-white"]);
    TokensThenConditions(BaseClasses, conditions);
    Selected3(conditions[0], conditions[1], conditions[2]);
    ClassNames(Tokens(BaseClasses) + [Conditions(conditions)])
  }

  /** The CTA anchor: an external ("url") link opens in a new tab with a safe `rel`. */
  function CtaAnchor(text: string, link: CtaLink): (a: Anchor)
    ensures a.href == link.url && a.text == text
    ensures a.target == "_blank" <==> link.linktype == "url"
    ensures a.target == "_self" <==> link.linktype != "url"
    ensures a.rel == (if link.linktype == "url" then Some("noopener noreferrer") else None)
  {
    var external := link.linktype == "url";
    Anchor(link.url, text, if external then "_blank" else "_self",
           if external then Some("noopener noreferrer") else None)
  }

  /** The Hero component. */
  function Render(blok: HeroBlok): (v: HeroView)
    ensures v.classes == BaseClasses + [ThemeGroup(blok.theme.GetOr(Light))]
    ensures v.background.Some? <==> blok.backgroundImage.Some? && blok.backgroundImage.value.filename != ""
    ensures v.background.Some? ==>
      v.background.value == Image(blok.backgroundImage.value.filename, OrElse(blok.backgroundImage.value.alt, "Background"))
    ensures v.subtitle.Some? <==> Truthy(blok.subtitle)
    ensures v.subtitle.Some? ==> v.subtitle == blok.subtitle
    ensures v.heading == blok.title
    ensures v.description.Some? <==> Truthy(blok.description)
    ensures v.description.Some? ==> v.description == blok.description
    ensures v.cta.Some? <==> Truthy(blok.ctaText) && blok.ctaLink.Some? && blok.ctaLink.value.url != ""
    ensures v.cta.Some? ==> v.cta.value == CtaAnchor(blok.ctaText.value, blok.ctaLink.value)
  {
    var theme := blok.theme.GetOr(Light);
    var background :=
      match blok.backgroundImage
      case Some(img) => if img.filename != "" then Some(Image(img.filename, OrElse(img.alt, "Background"))) else None
      case None => None;
    var cta :=
      if Truthy(blok.ctaText) && blok.ctaLink.Some? && blok.ctaLink.value.url != ""
      then Some(CtaAnchor(blok.ctaText.value, blok.ctaLink.value))
      else None;
    HeroView(
      HeroClasses(theme),
      background,
      if Truthy(blok.subtitle) then blok.subtitle else None,
      blok.title,
      if Truthy(blok.description) then blok.description else None,
      cta)
  }

  /** An absent theme renders exactly as the light theme. */
  lemma ThemeDefaultsToLight(blok: HeroBlok)
    requires blok.theme.None?
    ensures Render(blok).classes == Render(blok.(theme := Some(Light))).classes
    ensures Render(blok).classes[|BaseClasses|] == "bg-white text-gray-900"
  {
  }
}
