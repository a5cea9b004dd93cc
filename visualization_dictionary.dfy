/**
 * The visualization dictionary of shared/visualizationDictionary.ts: the
 * predefined styles, the resolution of an `x-viz` annotation to a style, and
 * the Tailwind class string a style renders to.
 */
module VisualizationDictionary {
  import opened Wrappers
  import opened Strings

  datatype VizType =
    | MainHeadline | SectionHeadline | ParagraphHeadline | SectionDivider
    | TableHeader | TableRow | BulletPoint | Custom

  datatype Size = Xs | Sm | Base | Lg | Xl | X2l | X3l | X4l

  datatype Weight = Normal | Medium | Semibold | Bold | Extrabold

  datatype BulletStyle = Disc | Circle | Square | Dash | Arrow | NoBullet

  datatype DividerStyle = Line | Dashed | Dotted | Double | Thick

  /** The spacing scale of marginTop, marginBottom and padding. */
  datatype Spacing = SpaceNone | SpaceSm | SpaceMd | SpaceLg | SpaceXl

  datatype TableStyle = TableStyle(striped: Option<bool>, bordered: Option<bool>, hover: Option<bool>, compact: Option<bool>)

  /** VisualizationStyle: a type and optional presentation settings. */
  datatype Style = Style(
    vizType: VizType,
    size: Option<Size>,
    weight: Option<Weight>,
    color: Option<string>,
    italic: Option<bool>,
    underline: Option<bool>,
    bulletStyle: Option<BulletStyle>,
    indent: Option<int>,
    tableStyle: Option<TableStyle>,
    dividerStyle: Option<DividerStyle>,
    dividerColor: Option<string>,
    marginTop: Option<Spacing>,
    marginBottom: Option<Spacing>,
    padding: Option<Spacing>)

  /** A style with only its type set. */
  function Bare(t: VizType): Style
  {
    Style(t, None, None, None, None, None, None, None, None, None, None, None, None, None)
  }

  /** A style with type, size, weight and colour, the shape of the inline styles. */
  function Typed(t: VizType, size: Size, weight: Weight, color: string): Style
  {
    Bare(t).(size := Some(size), weight := Some(weight), color := Some(color))
  }

  /** The `x-viz` annotation: a dictionary id or an inline style. */
  datatype VizAnnotation = VizId(id: string) | VizInline(style: Style)

  /** The fallback for an id that is not in the dictionary. */
  const FallbackStyle := Typed(Custom, Base, Normal, "text-gray-700")

  /** VISUALIZATION_DICTIONARY. */
  const Dictionary: map<string, Style> := map[
    "main_headline" := Typed(MainHeadline, X3l, Bold, "text-gray-900").(marginTop := Some(SpaceLg), marginBottom := Some(SpaceMd)),
    "section_headline" := Typed(SectionHeadline, X2l, Bold, "text-gray-800").(marginTop := Some(SpaceMd), marginBottom := Some(SpaceSm)),
    "paragraph_headline" := Typed(ParagraphHeadline, Lg, Semibold, "text-gray-700").(marginTop := Some(SpaceSm), marginBottom := Some(SpaceSm)),
    "section_divider" := Bare(SectionDivider).(dividerStyle := Some(Line), dividerColor := Some("border-gray-300"),
                                               marginTop := Some(SpaceMd), marginBottom := Some(SpaceMd)),
    "table_header" := Typed(TableHeader, Sm, Bold, "text-gray-900").(tableStyle := Some(TableStyle(Some(false), Some(true), Some(false), Some(false)))),
    "table_row" := Typed(TableRow, Sm, Normal, "text-gray-700").(tableStyle := Some(TableStyle(Some(true), Some(true), Some(true), Some(false)))),
    "bullet_point" := Typed(BulletPoint, Base, Normal, "text-gray-700").(bulletStyle := Some(Disc), indent := Some(1), marginBottom := Some(SpaceSm))
  ]

  /** The dictionary key that names each visualization type. */
  function TypeName(t: VizType): string
  {
    match t
    case MainHeadline => "main_headline"
    case SectionHeadline => "section_headline"
    case ParagraphHeadline => "paragraph_headline"
    case SectionDivider => "section_divider"
    case TableHeader => "table_header"
    case TableRow => "table_row"
    case BulletPoint => "bullet_point"
    case Custom => "custom"
  }

  /** Every dictionary entry's type is the type its key names, and only `custom` has no entry. */
  lemma DictionaryTypesMatchKeys()
    ensures forall id :: id in Dictionary ==> TypeName(Dictionary[id].vizType) == id
    ensures forall t: VizType :: TypeName(t) in Dictionary <==> t != Custom
  {
  }

  /** resolveVisualizationStyle. */
  function ResolveStyle(viz: VizAnnotation): (r: Style)
    ensures viz.VizInline? ==> r == viz.style
    ensures viz.VizId? && viz.id in Dictionary ==> r == Dictionary[viz.id]
    ensures viz.VizId? && viz.id !in Dictionary ==> r == FallbackStyle
  {
    match viz
    case VizId(id) => if id in Dictionary then Dictionary[id] else FallbackStyle
    case VizInline(style) => style
  }

  /** Resolution preserves what it finds: a resolved dictionary id names the resolved style's type. */
  lemma ResolveKnownId(id: string)
    requires id in Dictionary
    ensures TypeName(ResolveStyle(VizId(id)).vizType) == id
  {
    DictionaryTypesMatchKeys();
  }

  // ---------------------------------------------------------------------------
  // getVisualizationClasses
  // ---------------------------------------------------------------------------

  function SizeClass(s: Size): string
  {
    match s
    case Xs => "text-xs"
    case Sm => "text-sm"
    case Base => "text-base"
    case Lg => "text-lg"
    case Xl => "text-xl"
    case X2l => "text-2xl"
    case X3l => "text-3xl"
    case X4l => "text-4xl"
  }

  function WeightClass(w: Weight): string
  {
    match w
    case Normal => "font-normal"
    case Medium => "font-medium"
    case Semibold => "font-semibold"
    case Bold => "font-bold"
    case Extrabold => "font-extrabold"
  }

  /** The step of the spacing scale. */
  function SpacingStep(s: Spacing): string
  {
    match s
    case SpaceNone => "0"
    case SpaceSm => "2"
    case SpaceMd => "4"
    case SpaceLg => "6"
    case SpaceXl => "8"
  }

  /** The class of a spacing setting, or None when it is absent. */
  function SpacingPart(prefix: string, s: Option<Spacing>): Option<string>
  {
    if s.Some? then Some(prefix + SpacingStep(s.value)) else None
  }

  function SizePart(style: Style): Option<string>
  {
    if style.size.Some? then Some(SizeClass(style.size.value)) else None
  }

  function WeightPart(style: Style): Option<string>
  {
    if style.weight.Some? then Some(WeightClass(style.weight.value)) else None
  }

  function ColorPart(style: Style): Option<string>
  {
    if style.color.Some? && style.color.value != [] then Some(style.color.value) else None
  }

  function FlagPart(flag: Option<bool>, name: string): Option<string>
  {
    if flag == Some(true) then Some(name) else None
  }

  function IndentPart(style: Style): Option<string>
  {
    if style.indent.Some? && style.indent.value != 0 then Some("ml-" + IntToString(style.indent.value * 4)) else None
  }

  /** A present class as a one-element list. */
  function Opt(o: Option<string>): seq<string>
  {
    if o.Some? then [o.value] else []
  }

  /** The size, weight, colour, italic and underline classes, in that order. */
  function TextClasses(style: Style): seq<string>
  {
    Opt(SizePart(style)) + Opt(WeightPart(style)) + Opt(ColorPart(style))
    + Opt(FlagPart(style.italic, "italic")) + Opt(FlagPart(style.underline, "underline"))
  }

  /**
   * The classes of a style in their fixed order: size, weight, colour,
   * italic, underline, top margin, bottom margin, padding, indent.  An absent
   * setting, a false flag, an empty colour and a zero indent give no class.
   */
  function Classes(style: Style): seq<string>
  {
    TextClasses(style) + Opt(SpacingPart("mt-", style.marginTop)) + Opt(SpacingPart("mb-", style.marginBottom))
    + Opt(SpacingPart("p-", style.padding)) + Opt(IndentPart(style))
  }

  /**
   * getVisualizationClasses: the classes array is filled setting by setting
   * (the text settings, then the layout settings) and joined with single spaces.
   */
  method VisualizationClasses(style: Style) returns (classes: seq<string>, s: string)
    ensures classes == Classes(style)
    ensures s == Join(classes, " ")
    ensures s == [] <==> classes == []
  {
    classes := PushTextClasses(style);
    ghost var c5 := classes;
    if style.marginTop.Some? {
      classes := classes + ["mt-" + SpacingStep(style.marginTop.value)];
    }
    assert classes == c5 + Opt(SpacingPart("mt-", style.marginTop));
    ghost var c6 := classes;
    if style.marginBottom.Some? {
      classes := classes + ["mb-" + SpacingStep(style.marginBottom.value)];
    }
    assert classes == c6 + Opt(SpacingPart("mb-", style.marginBottom));
    ghost var c7 := classes;
    if style.padding.Some? {
      classes := classes + ["p-" + SpacingStep(style.padding.value)];
    }
    assert classes == c7 + Opt(SpacingPart("p-", style.padding));
    ghost var c8 := classes;
    if style.indent.Some? && style.indent.value != 0 {
      classes := classes + ["ml-" + IntToString(style.indent.value * 4)];
    }
    assert classes == c8 + Opt(IndentPart(style));
    s := Join(classes, " ");
    ClassStringEmpty(style);
  }

  /** The first five pushes of getVisualizationClasses: size, weight, colour, italic, underline. */
  method PushTextClasses(style: Style) returns (classes: seq<string>)
    ensures classes == TextClasses(style)
  {
    classes := [];
    if style.size.Some? {
      classes := classes + [SizeClass(style.size.value)];
    }
    assert classes == Opt(SizePart(style));
    ghost var c1 := classes;
    if style.weight.Some? {
      classes := classes + [WeightClass(style.weight.value)];
    }
    assert classes == c1 + Opt(WeightPart(style));
    ghost var c2 := classes;
    if style.color.Some? && style.color.value != [] {
      classes := classes + [style.color.value];
    }
    assert classes == c2 + Opt(ColorPart(style));
    ghost var c3 := classes;
    if style.italic == Some(true) {
      classes := classes + ["italic"];
    }
    assert classes == c3 + Opt(FlagPart(style.italic, "italic"));
    ghost var c4 := classes;
    if style.underline == Some(true) {
      classes := classes + ["underline"];
    }
  }

  /** The class string is empty exactly when no setting renders a class. */
  lemma ClassStringEmpty(style: Style)
    ensures Join(Classes(style), " ") == [] <==> Classes(style) == []
  {
    ClassesNonEmpty(style);
    JoinEmpty(Classes(style), " ");
  }

  /** Every class comes from one of the nine settings. */
  lemma ClassSources(style: Style, c: string)
    requires c in Classes(style)
    ensures || Some(c) == SizePart(style) || Some(c) == WeightPart(style) || Some(c) == ColorPart(style)
            || Some(c) == FlagPart(style.italic, "italic") || Some(c) == FlagPart(style.underline, "underline")
            || Some(c) == SpacingPart("mt-", style.marginTop) || Some(c) == SpacingPart("mb-", style.marginBottom)
            || Some(c) == SpacingPart("p-", style.padding) || Some(c) == IndentPart(style)
  {
    if c in TextClasses(style) {
      TextClassSources(style, c);
    }
  }

  lemma TextClassSources(style: Style, c: string)
    requires c in TextClasses(style)
    ensures || Some(c) == SizePart(style) || Some(c) == WeightPart(style) || Some(c) == ColorPart(style)
            || Some(c) == FlagPart(style.italic, "italic") || Some(c) == FlagPart(style.underline, "underline")
  {
  }

  /** No class is the empty string. */
  lemma ClassesNonEmpty(style: Style)
    ensures forall i :: 0 <= i < |Classes(style)| ==> Classes(style)[i] != []
  {
    forall i | 0 <= i < |Classes(style)| ensures Classes(style)[i] != [] {
      ClassSources(style, Classes(style)[i]);
    }
  }

  /** A join is empty only when there is nothing to join or the one part is empty. */
  lemma JoinEmpty(parts: seq<string>, sep: string)
    requires sep != []
    requires forall i :: 0 <= i < |parts| ==> parts[i] != []
    ensures Join(parts, sep) == [] <==> parts == []
  {
    if |parts| >= 1 {
      assert Join(parts, sep)[..|parts[0]|] == parts[0] by {
        if |parts| > 1 {
          assert Join(parts, sep) == parts[0] + sep + Join(parts[1..], sep);
        }
      }
    }
  }

  /** A style that sets only its type gives no classes and the empty string. */
  lemma OnlyTypeGivesNoClasses(t: VizType)
    ensures Classes(Bare(t)) == []
    ensures Join(Classes(Bare(t)), " ") == ""
  {
  }

  /** False flags, an empty colour and a zero indent contribute no class. */
  lemma FalsyOptionsGiveNoClasses(t: VizType)
    ensures Classes(Bare(t).(color := Some(""), italic := Some(false), underline := Some(false), indent := Some(0))) == []
  {
  }

  /** The spacing scale: none, sm, md, lg, xl map to 0, 2, 4, 6, 8 for mt, mb and p alike. */
  lemma SpacingScale(t: VizType, s: Spacing)
    ensures Classes(Bare(t).(marginTop := Some(s))) == ["mt-" + NatToString(2 * SpacingIndex(s))]
    ensures Classes(Bare(t).(marginBottom := Some(s))) == ["mb-" + NatToString(2 * SpacingIndex(s))]
    ensures Classes(Bare(t).(padding := Some(s))) == ["p-" + NatToString(2 * SpacingIndex(s))]
  {
  }

  function SpacingIndex(s: Spacing): nat
  {
    match s
    case SpaceNone => 0
    case SpaceSm => 1
    case SpaceMd => 2
    case SpaceLg => 3
    case SpaceXl => 4
  }

  /** An indent n other than 0 adds the one class ml-(4n). */
  lemma IndentScale(t: VizType, n: nat)
    requires n != 0
    ensures Classes(Bare(t).(indent := Some(n))) == ["ml-" + NatToString(4 * n)]
  {
  }

  /**
   * An example of the class rules on one dictionary entry: the bullet point
   * renders as base, normal, grey text with a small bottom margin and one
   * indent step.
   */
  lemma BulletPointClasses()
    ensures Classes(Dictionary["bullet_point"]) == ["text-base", "font-normal", "text-gray-700", "mb-2", "ml-4"]
  {
    var style := Dictionary["bullet_point"];
    assert TextClasses(style) == ["text-base", "font-normal", "text-gray-700"];
    assert style.marginBottom == Some(SpaceSm) && style.indent == Some(1);
    assert "mb-" + "2" == "mb-2";
    assert IntToString(4) == "4";
    assert "ml-" + "4" == "ml-4";
  }

  /** With a space-free colour, splitting the class string on spaces gives back the classes in order. */
  lemma ClassStringSplits(style: Style)
    requires style.color.Some? ==> ' ' !in style.color.value
    requires Classes(style) != []
    ensures SplitOn(Join(Classes(style), " "), ' ') == Classes(style)
  {
    var cs := Classes(style);
    ClassesNonEmpty(style);
    PartsSpaceFree(style);
    forall i | 0 <= i < |cs| ensures ' ' !in cs[i] {
      ClassSources(style, cs[i]);
    }
    SplitJoin(cs, ' ');
  }

  /** Only the colour can bring a space into a class. */
  lemma PartsSpaceFree(style: Style)
    requires style.color.Some? ==> ' ' !in style.color.value
    ensures SizePart(style).Some? ==> ' ' !in SizePart(style).value
    ensures WeightPart(style).Some? ==> ' ' !in WeightPart(style).value
    ensures ColorPart(style).Some? ==> ' ' !in ColorPart(style).value
    ensures SpacingPart("mt-", style.marginTop).Some? ==> ' ' !in SpacingPart("mt-", style.marginTop).value
    ensures SpacingPart("mb-", style.marginBottom).Some? ==> ' ' !in SpacingPart("mb-", style.marginBottom).value
    ensures SpacingPart("p-", style.padding).Some? ==> ' ' !in SpacingPart("p-", style.padding).value
    ensures IndentPart(style).Some? ==> ' ' !in IndentPart(style).value
  {
    if style.indent.Some? && style.indent.value != 0 {
      var n := style.indent.value * 4;
      assert ' ' !in NatToString(if n < 0 then -n else n);
    }
  }
}
