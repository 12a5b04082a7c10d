/**
 * The closed hierarchy of slide configurations: a plain content slide and the
 * YouTube title slide, each built through a fail-fast check that reports the
 * first rule it breaks.
 */
module SlideTypes {
  import opened Wrappers
  import Json

  const ContentType: string := "content"
  const YouTubeTitleType: string := "title_youtube"
  /** The template layout every title slide must use. */
  const RequiredTitleLayout: string := "TitleLayout"

  datatype SlideConfig =
    | ContentSlide(layoutType: string, title: string, notesSource: string, images: seq<string>,
                   layoutName: Option<string>)
    | YouTubeTitleSlide(layoutType: string, title: string, notesSource: string, images: seq<string>,
                        layoutName: Option<string>, subtitle: string, seriesNumber: Option<string>)
  {
    /** The class-level `SLIDE_TYPE` discriminator. */
    function SlideType(): string
    {
      if ContentSlide? then ContentType else YouTubeTitleType
    }

    /** The rules every constructed slide satisfies: the base checks and the variant's own. */
    predicate Valid()
    {
      && title != ""
      && layoutType != ""
      && (YouTubeTitleSlide? ==> subtitle != "" && |images| == 1 && layoutName == Some(RequiredTitleLayout))
    }
  }

  /** The class a failing check names. */
  datatype Variant = ContentVariant | YouTubeTitleVariant

  datatype SlideError =
    | EmptyTitle(variant: Variant)
    | EmptyLayoutType(variant: Variant)
    | EmptySubtitle
    | WrongImageCount(count: nat)
    | WrongLayoutName(name: Option<string>)

  /**
   * `ContentSlideConfig(...)`: the base checks (title first, then layout type) and
   * nothing else.
   */
  function NewContentSlide(layoutType: string, title: string, notesSource: string, images: seq<string>,
                           layoutName: Option<string>): (r: Result<SlideConfig, SlideError>)
    ensures r.Success? <==> title != "" && layoutType != ""
    ensures r.Success? ==> r.value == ContentSlide(layoutType, title, notesSource, images, layoutName)
    ensures r.Success? ==> r.value.Valid()
    ensures title == "" ==> r == Failure(EmptyTitle(ContentVariant))
    ensures title != "" && layoutType == "" ==> r == Failure(EmptyLayoutType(ContentVariant))
  {
    if title == "" then Failure(EmptyTitle(ContentVariant))
    else if layoutType == "" then Failure(EmptyLayoutType(ContentVariant))
    else Success(ContentSlide(layoutType, title, notesSource, images, layoutName))
  }

  /** A missing or empty layout name becomes the required one; any other is kept. */
  function NormaliseLayoutName(layoutName: Option<string>): (n: Option<string>)
    ensures n.Some? && n.value != ""
    ensures layoutName.Some? && layoutName.value != "" ==> n == layoutName
    ensures layoutName.None? || layoutName.value == "" ==> n == Some(RequiredTitleLayout)
  {
    if layoutName.None? || layoutName.value == "" then Some(RequiredTitleLayout) else layoutName
  }

  /**
   * `YouTubeTitleSlideConfig(...)`: normalise the layout name, run the base checks,
   * then require a subtitle, exactly one image and the title layout, in that order.
   */
  function NewYouTubeTitleSlide(layoutType: string, title: string, notesSource: string, images: seq<string>,
                                layoutName: Option<string>, subtitle: string, seriesNumber: Option<string>)
    : (r: Result<SlideConfig, SlideError>)
    ensures r.Success? <==> && title != "" && layoutType != "" && subtitle != "" && |images| == 1
                            && (layoutName.None? || layoutName.value in {"", RequiredTitleLayout})
    ensures r.Success? ==> r.value.Valid()
    ensures r.Success? ==> r.value == YouTubeTitleSlide(layoutType, title, notesSource, images,
                                                        Some(RequiredTitleLayout), subtitle, seriesNumber)
    ensures title == "" ==> r == Failure(EmptyTitle(YouTubeTitleVariant))
    ensures title != "" && layoutType == "" ==> r == Failure(EmptyLayoutType(YouTubeTitleVariant))
    ensures title != "" && layoutType != "" && subtitle == "" ==> r == Failure(EmptySubtitle)
    ensures title != "" && layoutType != "" && subtitle != "" && |images| != 1 ==> r == Failure(WrongImageCount(|images|))
    ensures r.Failure? && r.error.WrongLayoutName? ==> r.error.name == layoutName && layoutName.value != RequiredTitleLayout
    ensures title != "" && layoutType != "" && subtitle != "" && |images| == 1
            && !(layoutName.None? || layoutName.value in {"", RequiredTitleLayout}) ==>
              r == Failure(WrongLayoutName(layoutName))
  {
    var slide := YouTubeTitleSlide(layoutType, title, notesSource, images, NormaliseLayoutName(layoutName),
                                   subtitle, seriesNumber);
    if title == "" then Failure(EmptyTitle(YouTubeTitleVariant))
    else if layoutType == "" then Failure(EmptyLayoutType(YouTubeTitleVariant))
    else if subtitle == "" then Failure(EmptySubtitle)
    else if |images| != 1 then Failure(WrongImageCount(|images|))
    else if slide.layoutName != Some(RequiredTitleLayout) then Failure(WrongLayoutName(slide.layoutName))
    else Success(slide)
  }

  /**
   * Rebuilding a constructed slide from its own fields gives it back: the
   * constructors accept exactly the valid configurations and change nothing in them.
   */
  lemma {:induction false} ConstructorsKeepValidSlides(s: SlideConfig)
    requires s.Valid()
    ensures s.ContentSlide? ==> NewContentSlide(s.layoutType, s.title, s.notesSource, s.images, s.layoutName) == Success(s)
    ensures s.YouTubeTitleSlide? ==>
              NewYouTubeTitleSlide(s.layoutType, s.title, s.notesSource, s.images, s.layoutName, s.subtitle, s.seriesNumber)
              == Success(s)
  {
  }

  const BaseKeys: set<string> := {"slide_type", "layout_type", "title", "notes_source", "images", "layout_name"}
  const TitleKeys: set<string> := {"subtitle", "series_number"}

  /** `to_dict`: the discriminator, the five base fields, and for a title slide its two own fields. */
  function ToDict(s: SlideConfig): (d: map<string, Json.Value>)
    ensures s.ContentSlide? ==> d.Keys == BaseKeys
    ensures s.YouTubeTitleSlide? ==> d.Keys == BaseKeys + TitleKeys
    ensures d["slide_type"] == Json.Str(s.SlideType())
    ensures d["layout_type"] == Json.Str(s.layoutType) && d["title"] == Json.Str(s.title)
    ensures d["notes_source"] == Json.Str(s.notesSource)
    ensures d["images"] == Json.Arr(Json.StrItems(s.images))
    ensures d["layout_name"] == Json.OptionalStr(s.layoutName)
    ensures s.YouTubeTitleSlide? ==>
              d["subtitle"] == Json.Str(s.subtitle) && d["series_number"] == Json.OptionalStr(s.seriesNumber)
  {
    var base := map[
      "slide_type" := Json.Str(s.SlideType()),
      "layout_type" := Json.Str(s.layoutType),
      "title" := Json.Str(s.title),
      "notes_source" := Json.Str(s.notesSource),
      "images" := Json.Arr(Json.StrItems(s.images)),
      "layout_name" := Json.OptionalStr(s.layoutName)];
    match s
    case ContentSlide(_, _, _, _, _) => base
    case YouTubeTitleSlide(_, _, _, _, _, subtitle, seriesNumber) =>
      base["subtitle" := Json.Str(subtitle)]["series_number" := Json.OptionalStr(seriesNumber)]
  }
}
