/**
  The CTA banner: a background table, a button-style table, defaulted fields and a
  `switch` on the variant that picks one of three layouts, each with one CTA link.
 */
module CtaBanner {
  import opened Wrappers
  import opened Strings

  datatype BackgroundColor = Primary | Secondary | White | Gray | Dark

  datatype Alignment = AlignCentered | AlignSplit

  datatype CtaLink = CtaLink(url: string, target: Option<string>)

  datatype BannerImage = BannerImage(filename: string, alt: Option<string>)

  /**
    The banner's content block; `None` is an absent (`undefined`) field. The variant is a
    plain string because the `switch` sends every unknown value to its default.
   */
  datatype CtaBannerBlok = CtaBannerBlok(
    title: string,
    description: Option<string>,
    ctaText: string,
    ctaLink: CtaLink,
    image: Option<BannerImage>,
    formEmbedCode: Option<string>,
    backgroundColor: Option<BackgroundColor>,
    alignment: Option<Alignment>,
    variant: Option<string>)

  datatype Branch = CenteredText | SplitLayout | WithForm

  datatype Anchor = Anchor(href: string, target: string, text: string, classes: seq<string>)

  datatype Media = Picture(src: string, alt: string) | ImagePlaceholder(caption: string)

  datatype FormPanel =
    | EmbeddedForm(html: string)
    | PlaceholderForm(heading: string, emailPlaceholder: string, namePlaceholder: string, submitLabel: string)

  /** The second column of a layout: none for the centred text, media or a form otherwise. */
  datatype Side = NoSide | MediaSide(media: Media) | FormSide(form: FormPanel)

  /** What the banner renders: its layout, root classes, texts, the CTA link and the side column. */
  datatype CtaBannerView = CtaBannerView(
    branch: Branch,
    rootClasses: seq<string>,
    title: string,
    description: Option<string>,
    cta: Anchor,
    side: Side)

  /** `backgroundColors`. */
  function BackgroundClasses(color: BackgroundColor): string {
    match color
    case Primary => "bg-blue-600 text-white"
    case Secondary => "bg-purple-600 text-white"
    case White => "bg-white text-gray-900"
    case Gray => "bg-gray-100 text-gray-900"
    case Dark => "bg-gray-900 text-white"
  }

  /** `ctaButtonStyles`. */
  function ButtonClasses(color: BackgroundColor): string {
    match color
    case Primary => "bg-white text-blue-600 hover:bg-gray-100"
    case Secondary => "bg-white text-purple-600 hover:bg-gray-100"
    case White => "bg-blue-600 text-white hover:bg-blue-700"
    case Gray => "bg-blue-600 text-white hover:bg-blue-700"
    case Dark => "bg-blue-600 text-white hover:bg-blue-700"
  }

  /** The coloured backgrounds get a white button; the light and dark ones the blue button. */
  lemma ButtonContrast(color: BackgroundColor)
    ensures color == Primary || color == Secondary ==> ButtonClasses(color)[..9] == "bg-white "
    ensures color != Primary && color != Secondary ==> ButtonClasses(color) == "bg-blue-600 text-white hover:bg-blue-700"
  {
  }

  /** The `switch (variant)`: two named layouts, and the centred text for everything else. */
  function SelectBranch(variant: string): (b: Branch)
    ensures b == SplitLayout <==> variant == "split-layout"
    ensures b == WithForm <==> variant == "with-form"
    ensures b == CenteredText <==> variant != "split-layout" && variant != "with-form"
  {
    if variant == "split-layout" then SplitLayout
    else if variant == "with-form" then WithForm
    else CenteredText
  }

  const ButtonBaseClasses: seq<string> :=
    ["inline-block", "px-8", "py-3", "rounded-lg", "font-semibold", "text-lg", "transition-colors"]

  const PlaceholderFormPanel: FormPanel :=
    PlaceholderForm("Start Your Journey", "Enter your email", "First Name", "Get Started")

  /** The CTA link every layout renders. */
  function CtaAnchor(blok: CtaBannerBlok, color: BackgroundColor): Anchor {
    Anchor(blok.ctaLink.url, OrElse(blok.ctaLink.target, "_self"), blok.ctaText, ButtonBaseClasses + [ButtonClasses(color)])
  }

  /** The image column of the split layout. */
  function SplitMedia(blok: CtaBannerBlok): (m: Media)
    ensures m.Picture? <==> blok.image.Some? && blok.image.value.filename != ""
    ensures m.Picture? ==> m == Picture(blok.image.value.filename, OrElse(blok.image.value.alt, blok.title))
    ensures m.ImagePlaceholder? ==> m.caption == "Image Placeholder"
  {
    if blok.image.Some? && blok.image.value.filename != ""
    then Picture(blok.image.value.filename, OrElse(blok.image.value.alt, blok.title))
    else ImagePlaceholder("Image Placeholder")
  }

  /** The form column of the form layout. */
  function FormColumn(blok: CtaBannerBlok): (f: FormPanel)
    ensures f.EmbeddedForm? <==> Truthy(blok.formEmbedCode)
    ensures f.EmbeddedForm? ==> f.html == blok.formEmbedCode.value
    ensures f.PlaceholderForm? ==> f == PlaceholderFormPanel
  {
    if Truthy(blok.formEmbedCode) then EmbeddedForm(blok.formEmbedCode.value) else PlaceholderFormPanel
  }

  /** The CtaBanner component, with defaults "primary", "centered" and "centered-text". */
  function Render(blok: CtaBannerBlok): (v: CtaBannerView)
    ensures v.branch == SelectBranch(blok.variant.GetOr("centered-text"))
    ensures BackgroundClasses(blok.backgroundColor.GetOr(Primary)) in v.rootClasses
    ensures "text-center" in v.rootClasses <==> v.branch == CenteredText
    ensures "lg:flex-row" in v.rootClasses <==> v.branch == SplitLayout
    ensures v.title == blok.title
    ensures v.description.Some? <==> Truthy(blok.description)
    ensures v.description.Some? ==> v.description == blok.description
    ensures v.cta.href == blok.ctaLink.url && v.cta.text == blok.ctaText
    ensures v.cta.target == OrElse(blok.ctaLink.target, "_self")
    ensures v.cta.classes == ButtonBaseClasses + [ButtonClasses(blok.backgroundColor.GetOr(Primary))]
    ensures v.side.NoSide? <==> v.branch == CenteredText
    ensures v.side.MediaSide? <==> v.branch == SplitLayout
    ensures v.side.MediaSide? ==> v.side.media == SplitMedia(blok)
    ensures v.side.FormSide? <==> v.branch == WithForm
    ensures v.side.FormSide? ==> v.side.form == FormColumn(blok)
  {
    var color := blok.backgroundColor.GetOr(Primary);
    var bg := BackgroundClasses(color);
    var description := if Truthy(blok.description) then blok.description else None;
    var cta := CtaAnchor(blok, color);
    match SelectBranch(blok.variant.GetOr("centered-text"))
    case SplitLayout =>
      CtaBannerView(SplitLayout, [bg, "lg:flex-row"], blok.title, description, cta, MediaSide(SplitMedia(blok)))
    case WithForm =>
      CtaBannerView(WithForm, ["py-16", "px-4", bg], blok.title, description, cta, FormSide(FormColumn(blok)))
    case CenteredText =>
      CtaBannerView(CenteredText, ["py-16", "px-4", bg, "text-center"], blok.title, description, cta, NoSide)
  }

  /** `alignment` is destructured with a default and never read: it changes nothing. */
  lemma AlignmentIgnored(blok: CtaBannerBlok, alignment: Option<Alignment>)
    ensures Render(blok.(alignment := alignment)) == Render(blok)
  {
  }

  /** With no colour and no variant: the centred layout on the primary blue background. */
  lemma Defaults(blok: CtaBannerBlok)
    requires blok.backgroundColor.None? && blok.variant.None?
    ensures Render(blok).branch == CenteredText
    ensures Render(blok).rootClasses == ["py-16", "px-4", "bg-blue-600 text-white", "text-center"]
  {
  }
}
