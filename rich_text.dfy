/**
  The RichText block: nothing for falsy content, otherwise a container whose class string
  is built by `[...].filter(Boolean).join(" ")` over four class names and one object.
 */
module RichText {
  import opened Wrappers
  import Strings
  import opened Classnames

  datatype TextAlign = AlignLeft | AlignCenter | AlignRight

  datatype MaxWidth = WidthSm | WidthMd | WidthLg | WidthXl | WidthFull

  /** A rich-text document; the component passes it to the renderer untouched. */
  datatype RichDoc = RichDoc(nodes: seq<string>)

  /**
    The RichText content block. `content` is `None` for every falsy value the source can
    receive (`undefined`, `null`, `""`, `0`, `false`).
   */
  datatype RichTextBlok = RichTextBlok(content: Option<RichDoc>, textAlign: Option<TextAlign>, maxWidth: Option<MaxWidth>)

  datatype RichTextView = RichTextView(className: string, content: RichDoc)

  /** An element of the class array: a string, or the object literal of conditions. */
  datatype ArrayItem = Str(s: string) | Obj(pairs: seq<(string, bool)>)

  /** `Boolean(item)`: the empty string is falsy, every object is truthy. */
  predicate Truthy(item: ArrayItem) {
    match item
    case Str(s) => s != ""
    case Obj(_) => true
  }

  /** `String(item)` as `join` applies it: a plain object prints as "[object Object]". */
  function ToJsString(item: ArrayItem): string {
    match item
    case Str(s) => s
    case Obj(_) => "[object Object]"
  }

  /** `items.filter(Boolean)`. */
  function FilterTruthy(items: seq<ArrayItem>): (r: seq<ArrayItem>)
    ensures |r| <= |items|
    ensures (forall i :: 0 <= i < |items| ==> Truthy(items[i])) ==> r == items
  {
    if items == [] then []
    else (if Truthy(items[0]) then [items[0]] else []) + FilterTruthy(items[1..])
  }

  /** `items.join(sep)`. */
  function JoinItems(items: seq<ArrayItem>, sep: string): string {
    Strings.Join(seq(|items|, i requires 0 <= i < |items| => ToJsString(items[i])), sep)
  }

  /** The object literal of the source: one condition per alignment and per width. */
  function ConditionPairs(align: TextAlign, width: MaxWidth): seq<(string, bool)> {
    [("text-left", align == AlignLeft),
     ("text-center", align == AlignCenter),
     ("text-right", align == AlignRight),
     ("max-w-sm", width == WidthSm),
     ("max-w-md", width == WidthMd),
     ("max-w-lg", width == WidthLg),
     ("max-w-xl", width == WidthXl),
     ("max-w-full", width == WidthFull)]
  }

  const BaseClasses: seq<string> := ["sb-rich-text", "prose", "prose-gray", "max-w-none"]

  function ContainerItems(align: TextAlign, width: MaxWidth): seq<ArrayItem> {
    [Str("sb-rich-text"), Str("prose"), Str("prose-gray"), Str("max-w-none"), Obj(ConditionPairs(align, width))]
  }

  /**
    The class string as written: the object is stringified by `join`, so the result is the
    same constant for every alignment and width, and `filter(Boolean)` removes nothing.
   */
  function ContainerClasses(align: TextAlign, width: MaxWidth): (c: string)
    ensures FilterTruthy(ContainerItems(align, width)) == ContainerItems(align, width)
    ensures c == Strings.Join(BaseClasses + ["[object Object]"], " ")
  {
    var items := ContainerItems(align, width);
    assert forall i :: 0 <= i < |items| ==> Truthy(items[i]);
    assert seq(|items|, i requires 0 <= i < |items| => ToJsString(items[i])) == BaseClasses + ["[object Object]"];
    JoinItems(FilterTruthy(items), " ")
  }

  /** The RichText component as written: defaults "left" and "full", `null` for falsy content. */
  function Render(blok: RichTextBlok): (v: Option<RichTextView>)
    ensures v.None? <==> blok.content.None?
    ensures v.Some? ==> v.value.content == blok.content.value
    ensures v.Some? ==> v.value.className == Strings.Join(BaseClasses + ["[object Object]"], " ")
  {
    match blok.content
    case None => None
    case Some(doc) =>
      Some(RichTextView(ContainerClasses(blok.textAlign.GetOr(AlignLeft), blok.maxWidth.GetOr(WidthFull)), doc))
  }

  /** Neither `text_align` nor `max_width` has any effect on what is rendered. */
  lemma AlignAndWidthIgnored(blok: RichTextBlok, align: Option<TextAlign>, width: Option<MaxWidth>)
    ensures Render(blok) == Render(blok.(textAlign := align, maxWidth := width))
  {
  }

  function AlignClass(align: TextAlign): string {
    match align
    case AlignLeft => "text-left"
    case AlignCenter => "text-center"
    case AlignRight => "text-right"
  }

  function WidthClass(width: MaxWidth): string {
    match width
    case WidthSm => "max-w-sm"
    case WidthMd => "max-w-md"
    case WidthLg => "max-w-lg"
    case WidthXl => "max-w-xl"
    case WidthFull => "max-w-full"
  }

  /** The alignment half of the object literal. */
  function AlignPairs(align: TextAlign): seq<(string, bool)> {
    [("text-left", align == AlignLeft), ("text-center", align == AlignCenter), ("text-right", align == AlignRight)]
  }

  /** The width half of the object literal. */
  function WidthPairs(width: MaxWidth): seq<(string, bool)> {
    [("max-w-sm", width == WidthSm), ("max-w-md", width == WidthMd), ("max-w-lg", width == WidthLg),
     ("max-w-xl", width == WidthXl), ("max-w-full", width == WidthFull)]
  }

  /** Exactly one alignment condition holds. */
  lemma AlignSelection(align: TextAlign)
    ensures Selected(AlignPairs(align)) == [AlignClass(align)]
  {
    var p := AlignPairs(align);
    Selected3(p[0], p[1], p[2]);
  }

  /** Exactly one width condition holds. */
  lemma WidthSelection(width: MaxWidth)
    ensures Selected(WidthPairs(width)) == [WidthClass(width)]
  {
    var p := WidthPairs(width);
    Selected5(p[0], p[1], p[2], p[3], p[4]);
  }

  /** The eight keys of the object are all different. */
  lemma ConditionKeysDistinct(align: TextAlign, width: MaxWidth)
    ensures JsObject.DistinctKeys(ConditionPairs(align, width))
  {
    var ks := ["text-left", "text-center", "text-right", "max-w-sm", "max-w-md", "max-w-lg", "max-w-xl", "max-w-full"];
    assert JsObject.Distinct(ks);
    JsObject.KeysOf(ConditionPairs(align, width), ks);
  }

  lemma IntendedClassesProof(align: TextAlign, width: MaxWidth)
    ensures ClassNames(Tokens(BaseClasses) + [Conditions(ConditionPairs(align, width))])
         == BaseClasses + [AlignClass(align), WidthClass(width)]
  {
    var pairs := ConditionPairs(align, width);
    var a, w := AlignPairs(align), WidthPairs(width);
    calc {
      ClassNames(Tokens(BaseClasses) + [Conditions(pairs)]);
    == { ConditionKeysDistinct(align, width); TokensThenConditions(BaseClasses, pairs); }
      BaseClasses + Selected(pairs);
    == { assert pairs == a + w; SelectedAppend(a, w); }
      BaseClasses + (Selected(a) + Selected(w));
    == { AlignSelection(align); WidthSelection(width); }
      BaseClasses + [AlignClass(align), WidthClass(width)];
    }
  }

  /**
    The evidently intended class list: the same arguments given to `classNames`, which
    adds exactly the alignment class and the width class after the four fixed ones.
   */
  function IntendedContainerClasses(align: TextAlign, width: MaxWidth): (c: seq<string>)
    ensures c == BaseClasses + [AlignClass(align), WidthClass(width)]
  {
    IntendedClassesProof(align, width);
    ClassNames(Tokens(BaseClasses) + [Conditions(ConditionPairs(align, width))])
  }

  /** The RichText component with the intended class list. */
  function RenderCorrected(blok: RichTextBlok): (v: Option<RichTextView>)
    ensures v.None? <==> blok.content.None?
    ensures v.Some? ==> v.value.content == blok.content.value
    ensures v.Some? ==> v.value.className == Strings.Join(BaseClasses
      + [AlignClass(blok.textAlign.GetOr(AlignLeft)), WidthClass(blok.maxWidth.GetOr(WidthFull))], " ")
  {
    match blok.content
    case None => None
    case Some(doc) =>
      var classes := IntendedContainerClasses(blok.textAlign.GetOr(AlignLeft), blok.maxWidth.GetOr(WidthFull));
      Some(RichTextView(Strings.Join(classes, " "), doc))
  }

  /**
    As written, a centred narrow block gets the same classes as the default left, full-width
    one; with the intended list the two differ in both the alignment and the width class.
   */
  lemma CenteredNarrowLosesClasses(doc: RichDoc)
    ensures Render(RichTextBlok(Some(doc), Some(AlignCenter), Some(WidthSm)))
         == Render(RichTextBlok(Some(doc), None, None))
    ensures IntendedContainerClasses(AlignCenter, WidthSm)[4..] == ["text-center", "max-w-sm"]
    ensures IntendedContainerClasses(AlignLeft, WidthFull)[4..] == ["text-left", "max-w-full"]
  {
  }
}
