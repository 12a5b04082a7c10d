/**
 * The flat configuration records that a presentation file is parsed into, and
 * the advisory warnings computed over a parsed configuration.
 */
module ConfigSchema {
  import opened Wrappers
  import Json
  import Settings

  /** One slide of the flat schema: a geometry layout, a title, a notes source and image paths. */
  datatype SlideConfig = SlideConfig(layoutType: string, title: string, notesSource: string, images: seq<string>)
  {
    predicate Valid()
    {
      layoutType != "" && title != "" && notesSource != ""
    }
  }

  datatype SchemaError =
    | EmptyLayoutType
    | EmptyTitle
    | EmptyNotesSource
    | BadArguments
    | EmptySlides

  /** `SlideConfig(...)`: layout type, then title, then notes source must be non-empty. */
  function NewSlideConfig(layoutType: string, title: string, notesSource: string, images: seq<string>)
    : (r: Result<SlideConfig, SchemaError>)
    ensures r.Success? <==> layoutType != "" && title != "" && notesSource != ""
    ensures r.Success? ==> r.value == SlideConfig(layoutType, title, notesSource, images) && r.value.Valid()
    ensures layoutType == "" ==> r == Failure(EmptyLayoutType)
    ensures layoutType != "" && title == "" ==> r == Failure(EmptyTitle)
    ensures layoutType != "" && title != "" && notesSource == "" ==> r == Failure(EmptyNotesSource)
  {
    if layoutType == "" then Failure(EmptyLayoutType)
    else if title == "" then Failure(EmptyTitle)
    else if notesSource == "" then Failure(EmptyNotesSource)
    else Success(SlideConfig(layoutType, title, notesSource, images))
  }

  /** `images` may be left out and then is the empty list. */
  lemma ImagesDefaultToEmpty(layoutType: string, title: string, notesSource: string)
    requires layoutType != "" && title != "" && notesSource != ""
    ensures NewSlideConfig(layoutType, title, notesSource, []).value.images == []
  {
  }

  /** An entry of `slides` as given: an already built slide or a keyword record. */
  datatype SlideEntry = Typed(slide: SlideConfig) | Record(fields: map<string, Json.Value>)

  const SlideFields: set<string> := {"layout_type", "title", "notes_source", "images"}
  const RequiredSlideFields: set<string> := {"layout_type", "title", "notes_source"}

  /** A text field tested with `not`: strings as they are, any other false value as "". */
  function Text(v: Json.Value): Option<string>
  {
    if v.Str? then Some(v.s) else if Json.Truthy(v) then None else Some("")
  }

  /** The string a text field reads as: the string itself, or "" for a false value. */
  function TextValue(v: Json.Value): string
  {
    if v.Str? then v.s else ""
  }

  /**
   * A record whose keywords fit the schema and whose values are of the types the
   * fields hold: text fields are strings (or false values), `images` a list of strings.
   */
  predicate WellTypedRecord(fields: map<string, Json.Value>)
  {
    && fields.Keys <= SlideFields && RequiredSlideFields <= fields.Keys
    && Text(fields["layout_type"]).Some? && Text(fields["title"]).Some? && Text(fields["notes_source"]).Some?
    && ("images" in fields ==> Json.AsStrings(fields["images"]).Some?)
  }

  /** `SlideConfig(**record)`: unknown or missing keywords are refused before the checks run. */
  function FromRecord(fields: map<string, Json.Value>): (r: Result<SlideConfig, SchemaError>)
    ensures !(fields.Keys <= SlideFields) || !(RequiredSlideFields <= fields.Keys) ==> r == Failure(BadArguments)
    ensures r == Failure(BadArguments) <==> !WellTypedRecord(fields)
    ensures WellTypedRecord(fields) ==>
              r == NewSlideConfig(TextValue(fields["layout_type"]), TextValue(fields["title"]),
                                  TextValue(fields["notes_source"]),
                                  if "images" in fields then Json.AsStrings(fields["images"]).value else [])
    ensures r.Success? ==> r.value.Valid()
    ensures r.Success? ==> fields["title"] == Json.Str(r.value.title)
  {
    if !(fields.Keys <= SlideFields) || !(RequiredSlideFields <= fields.Keys) then Failure(BadArguments)
    else
      var layoutType := Text(fields["layout_type"]);
      var title := Text(fields["title"]);
      var notes := Text(fields["notes_source"]);
      var images := Json.AsStrings(Json.GetOr(fields, "images", Json.Arr([])));
      if layoutType.None? || title.None? || notes.None? || images.None? then Failure(BadArguments)
      else NewSlideConfig(layoutType.value, title.value, notes.value, images.value)
  }

  function ConvertEntry(e: SlideEntry): Result<SlideConfig, SchemaError>
  {
    match e
    case Typed(s) => Success(s)
    case Record(fields) => FromRecord(fields)
  }

  /**
   * The list comprehension over `slides`: records are converted, built slides are
   * kept, and the first entry that cannot be converted raises.
   */
  function ConvertEntries(entries: seq<SlideEntry>): (r: Result<seq<SlideConfig>, SchemaError>)
    ensures r.Success? <==> forall i | 0 <= i < |entries| :: ConvertEntry(entries[i]).Success?
    ensures r.Success? ==> |r.value| == |entries|
    ensures r.Success? ==> forall i | 0 <= i < |entries| :: r.value[i] == ConvertEntry(entries[i]).value
  {
    if entries == [] then Success([])
    else
      match ConvertEntry(entries[0])
      case Failure(e) => Failure(e)
      case Success(s) =>
        match ConvertEntries(entries[1..])
        case Failure(e) => Failure(e)
        case Success(rest) => Success([s] + rest)
  }

  /** The root of a configuration file. */
  datatype PresentationConfig = PresentationConfig(slides: seq<SlideConfig>, templatePath: string,
                                                   outputPath: string, layoutName: string)

  /** `PresentationConfig(...)`: at least one slide, then every record converted in place. */
  function NewPresentationConfig(slides: seq<SlideEntry>, templatePath: string, outputPath: string, layoutName: string)
    : (r: Result<PresentationConfig, SchemaError>)
    ensures slides == [] ==> r == Failure(EmptySlides)
    ensures r.Success? <==> slides != [] && ConvertEntries(slides).Success?
    ensures r.Success? ==> r.value.slides == ConvertEntries(slides).value
    ensures r.Success? ==> r.value.templatePath == templatePath && r.value.outputPath == outputPath
                           && r.value.layoutName == layoutName
  {
    if slides == [] then Failure(EmptySlides)
    else
      match ConvertEntries(slides)
      case Failure(e) => Failure(e)
      case Success(converted) => Success(PresentationConfig(converted, templatePath, outputPath, layoutName))
  }

  /** The constructor with every root field left at its default. */
  function NewPresentationConfigWithDefaults(slides: seq<SlideEntry>): (r: Result<PresentationConfig, SchemaError>)
    ensures r.Success? ==> r.value.templatePath == "template.pptx" && r.value.outputPath == "output.pptx"
                           && r.value.layoutName == "VideoLayout"
    ensures r.Success? <==> NewPresentationConfig(slides, "", "", "").Success?
  {
    NewPresentationConfig(slides, Settings.DefaultTemplatePath, Settings.DefaultOutputPath, Settings.DefaultLayoutName)
  }

  datatype Warning =
    | DuplicateTitles(titles: set<string>)
    | NoImages(position: nat, title: string)

  function Titles(slides: seq<SlideConfig>): (ts: seq<string>)
    ensures |ts| == |slides| && forall i | 0 <= i < |slides| :: ts[i] == slides[i].title
  {
    seq(|slides|, i requires 0 <= i < |slides| => slides[i].title)
  }

  /** The titles that occur more than once. */
  function RepeatedTitles(slides: seq<SlideConfig>): set<string>
  {
    set t | t in Titles(slides) && multiset(Titles(slides))[t] > 1
  }

  /** One warning per slide without images, with its 1-based position, in slide order. */
  function NoImageWarnings(slides: seq<SlideConfig>): (ws: seq<Warning>)
    ensures |ws| <= |slides|
    ensures forall i | 0 <= i < |ws| :: ws[i].NoImages? && 1 <= ws[i].position <= |slides|
  {
    if slides == [] then []
    else
      var last := slides[|slides| - 1];
      NoImageWarnings(slides[..|slides| - 1]) + (if last.images == [] then [NoImages(|slides|, last.title)] else [])
  }

  lemma NoImageWarningsStep(slides: seq<SlideConfig>, i: nat)
    requires i < |slides|
    ensures NoImageWarnings(slides[..i + 1]) == NoImageWarnings(slides[..i])
              + (if slides[i].images == [] then [NoImages(i + 1, slides[i].title)] else [])
  {
    assert slides[..i + 1][..i] == slides[..i];
  }

  /** Positions strictly increase along a list of no-image warnings. */
  predicate PositionsIncrease(ws: seq<Warning>)
  {
    forall i, j | 0 <= i < j < |ws| :: ws[i].NoImages? && ws[j].NoImages? && ws[i].position < ws[j].position
  }

  /** The no-image warnings follow the slides in order, so no slide is warned about twice. */
  lemma {:induction false} NoImageWarningsIncreasing(slides: seq<SlideConfig>)
    ensures PositionsIncrease(NoImageWarnings(slides))
    decreases |slides|
  {
    if slides != [] {
      var init := slides[..|slides| - 1];
      NoImageWarningsIncreasing(init);
      var before := NoImageWarnings(init);
      var ws := NoImageWarnings(slides);
      var last := slides[|slides| - 1];
      var tail := if last.images == [] then [NoImages(|slides|, last.title)] else [];
      assert ws == before + tail;
      forall i, j | 0 <= i < j < |ws|
        ensures ws[i].NoImages? && ws[j].NoImages? && ws[i].position < ws[j].position
      {
        if j < |before| {
          assert ws[i] == before[i] && ws[j] == before[j];
        } else {
          assert |tail| <= 1 && i < |before|;
          assert ws[i] == before[i] && before[i].position <= |init|;
          assert ws[j] == tail[0];
        }
      }
    }
  }

  /** The warnings `validate_config` reports, in order. */
  function Warnings(slides: seq<SlideConfig>): seq<Warning>
  {
    DuplicateWarning(slides) + NoImageWarnings(slides)
  }

  /** At most one warning, naming every repeated title. */
  function DuplicateWarning(slides: seq<SlideConfig>): seq<Warning>
  {
    var repeated := RepeatedTitles(slides);
    if repeated == {} then [] else [DuplicateTitles(repeated)]
  }

  /** `validate_config`: the duplicate-title warning, then a pass over the slides. */
  method ValidateConfig(config: PresentationConfig) returns (warnings: seq<Warning>)
    ensures warnings == Warnings(config.slides)
  {
    warnings := [];
    var repeated := RepeatedTitles(config.slides);
    if repeated != {} {
      warnings := warnings + [DuplicateTitles(repeated)];
    }
    ghost var prefix := warnings;
    assert prefix == DuplicateWarning(config.slides);
    var i := 0;
    while i < |config.slides|
      invariant 0 <= i <= |config.slides|
      invariant warnings == prefix + NoImageWarnings(config.slides[..i])
    {
      var slide := config.slides[i];
      if slide.images == [] {
        warnings := warnings + [NoImages(i + 1, slide.title)];
      }
      NoImageWarningsStep(config.slides, i);
      i := i + 1;
    }
    assert config.slides[..i] == config.slides;
  }

  /** Slide `k` (1-based) is warned about exactly when it has no images. */
  lemma {:induction false} NoImageWarningsExact(slides: seq<SlideConfig>, k: nat, t: string)
    ensures NoImages(k, t) in NoImageWarnings(slides)
            <==> 1 <= k <= |slides| && slides[k - 1].images == [] && slides[k - 1].title == t
    decreases |slides|
  {
    if slides != [] {
      var init := slides[..|slides| - 1];
      NoImageWarningsExact(init, k, t);
      if 1 <= k <= |init| {
        assert slides[k - 1] == init[k - 1];
      }
    }
  }

  /** A title is reported as duplicated exactly when two different slides carry it. */
  lemma {:induction false} RepeatedTitlesExact(slides: seq<SlideConfig>, t: string)
    ensures t in RepeatedTitles(slides)
            <==> exists i, j | 0 <= i < j < |slides| :: slides[i].title == t && slides[j].title == t
  {
    var ts := Titles(slides);
    CountAboveOne(ts, t);
    if t in RepeatedTitles(slides) {
      var i, j :| 0 <= i < j < |ts| && ts[i] == t && ts[j] == t;
      assert slides[i].title == t && slides[j].title == t;
    }
    if exists i, j | 0 <= i < j < |slides| :: slides[i].title == t && slides[j].title == t {
      var i, j :| 0 <= i < j < |slides| && slides[i].title == t && slides[j].title == t;
      assert ts[i] == t && ts[j] == t;
    }
  }

  /** A value occurs more than once in a sequence exactly when two positions hold it. */
  lemma {:induction false} CountAboveOne(ts: seq<string>, t: string)
    ensures multiset(ts)[t] > 1 <==> exists i, j | 0 <= i < j < |ts| :: ts[i] == t && ts[j] == t
    decreases |ts|
  {
    if ts != [] {
      var init := ts[..|ts| - 1];
      var last := ts[|ts| - 1];
      assert ts == init + [last];
      CountAboveOne(init, t);
      if last == t && multiset(init)[t] == 1 {
        var i :| 0 <= i < |init| && init[i] == t;
        assert ts[i] == t && ts[|ts| - 1] == t;
      }
      if exists i, j | 0 <= i < j < |ts| :: ts[i] == t && ts[j] == t {
        var i, j :| 0 <= i < j < |ts| && ts[i] == t && ts[j] == t;
        if j < |init| {
          assert init[i] == t && init[j] == t;
        } else {
          assert init[i] == t;
          assert t in multiset(init);
        }
      }
    }
  }

  /** No warnings exactly when titles are pairwise distinct and every slide has an image. */
  lemma WarningsEmptyIff(slides: seq<SlideConfig>)
    ensures Warnings(slides) == []
            <==> (forall i, j | 0 <= i < j < |slides| :: slides[i].title != slides[j].title)
                 && (forall i | 0 <= i < |slides| :: slides[i].images != [])
  {
    var ws := NoImageWarnings(slides);
    if ws == [] {
      forall i | 0 <= i < |slides| ensures slides[i].images != [] {
        NoImageWarningsExact(slides, i + 1, slides[i].title);
      }
    } else {
      var w := ws[0];
      NoImageWarningsExact(slides, w.position, w.title);
    }
    if RepeatedTitles(slides) != {} {
      var t :| t in RepeatedTitles(slides);
      RepeatedTitlesExact(slides, t);
    } else {
      forall i, j | 0 <= i < j < |slides| ensures slides[i].title != slides[j].title {
        RepeatedTitlesExact(slides, slides[i].title);
      }
    }
  }
}
