/**
 * Reading a parsed configuration document into the flat schema, migrating the
 * legacy `notes_text` field, and the document that saving a configuration writes.
 */
module ConfigLoader {
  import opened Wrappers
  import Json
  import opened ConfigSchema
  import Settings

  /** Why one slide entry could not be read. */
  datatype SlideFault =
    | NotAnObject
    | FieldNotText(key: string)
    | Rejected(reason: SchemaError)

  datatype LoaderError =
    | MalformedRoot
    | SlidesNotList
    | SlideFailed(position: nat, fault: SlideFault)
    | RootFieldNotText(key: string)
    | Unusable(reason: SchemaError)

  /** The notes of a slide record: `notes_source` unless missing or null, else `notes_text`, else "". */
  function NotesValue(fields: map<string, Json.Value>): (v: Json.Value)
    ensures "notes_source" in fields && fields["notes_source"] != Json.Null ==> v == fields["notes_source"]
    ensures ("notes_source" !in fields || fields["notes_source"] == Json.Null) && "notes_text" in fields ==>
              v == fields["notes_text"]
    ensures ("notes_source" !in fields || fields["notes_source"] == Json.Null) && "notes_text" !in fields ==>
              v == Json.Str("")
  {
    var source := Json.GetOr(fields, "notes_source", Json.Null);
    if source == Json.Null then Json.GetOr(fields, "notes_text", Json.Str("")) else source
  }

  /** A field the schema tests with `not`: strings as they are, other false values as "". */
  function TextField(fields: map<string, Json.Value>, key: string, v: Json.Value): (r: Result<string, SlideFault>)
    ensures v.Str? ==> r == Success(v.s)
    ensures r.Failure? ==> r.error == FieldNotText(key)
  {
    if v.Str? then Success(v.s) else if Json.Truthy(v) then Failure(FieldNotText(key)) else Success("")
  }

  /** The string a slide field reads as: absent fields and false values read as "". */
  function FieldText(fields: map<string, Json.Value>, key: string): string
  {
    if key in fields then TextValue(fields[key]) else ""
  }

  /**
   * A slide record whose fields hold what the schema reads: the text fields are absent,
   * strings or false values, and `images` is absent or a list of strings.
   */
  predicate WellTypedSlide(fields: map<string, Json.Value>)
  {
    && ("layout_type" in fields ==> Text(fields["layout_type"]).Some?)
    && ("title" in fields ==> Text(fields["title"]).Some?)
    && Text(NotesValue(fields)).Some?
    && ("images" in fields ==> Json.AsStrings(fields["images"]).Some?)
  }

  /** `_parse_slide`: read the four schema fields (with defaults) and build the slide. */
  function ParseSlide(entry: Json.Value): (r: Result<SlideConfig, SlideFault>)
    ensures !entry.Obj? ==> r == Failure(NotAnObject)
    ensures entry.Obj? ==> (r.Failure? && r.error.FieldNotText? <==> !WellTypedSlide(entry.fields))
    ensures entry.Obj? && WellTypedSlide(entry.fields) ==>
              var fields := entry.fields;
              var made := NewSlideConfig(FieldText(fields, "layout_type"), FieldText(fields, "title"),
                                         TextValue(NotesValue(fields)),
                                         if "images" in fields then Json.AsStrings(fields["images"]).value else []);
              && (made.Success? ==> r == Success(made.value))
              && (made.Failure? ==> r == Failure(Rejected(made.error)))
    ensures r.Success? ==> r.value.Valid()
  {
    if !entry.Obj? then Failure(NotAnObject)
    else
      var fields := entry.fields;
      var layoutType := TextField(fields, "layout_type", Json.GetOr(fields, "layout_type", Json.Str("")));
      var title := TextField(fields, "title", Json.GetOr(fields, "title", Json.Str("")));
      var notes := TextField(fields, "notes_source", NotesValue(fields));
      var images := Json.AsStrings(Json.GetOr(fields, "images", Json.Arr([])));
      if layoutType.Failure? then Failure(layoutType.error)
      else if title.Failure? then Failure(title.error)
      else if notes.Failure? then Failure(notes.error)
      else if images.None? then Failure(FieldNotText("images"))
      else
        match NewSlideConfig(layoutType.value, title.value, notes.value, images.value)
        case Success(s) => Success(s)
        case Failure(e) => Failure(Rejected(e))
  }

  /**
   * The slide loop of `_parse_config`, over the first `|items|` entries: every entry
   * parsed in order, the first failure reported with its 1-based position.
   */
  function ParseSlides(items: seq<Json.Value>): (r: Result<seq<SlideConfig>, LoaderError>)
    ensures r.Success? ==> |r.value| == |items|
    ensures r.Failure? ==> r.error.SlideFailed? && 1 <= r.error.position <= |items|
  {
    if items == [] then Success([])
    else
      match ParseSlides(items[..|items| - 1])
      case Failure(e) => Failure(e)
      case Success(slides) =>
        match ParseSlide(items[|items| - 1])
        case Failure(fault) => Failure(SlideFailed(|items|, fault))
        case Success(s) => Success(slides + [s])
  }

  /** A root text field with its default. */
  function RootText(fields: map<string, Json.Value>, key: string, default: string): Result<string, LoaderError>
  {
    var v := Json.GetOr(fields, key, Json.Str(default));
    if v.Str? then Success(v.s) else Failure(RootFieldNotText(key))
  }

  /** A root field that is either absent (so its default applies) or a string. */
  predicate TextOrAbsent(fields: map<string, Json.Value>, key: string)
  {
    key !in fields || fields[key].Str?
  }

  /** The value a configuration keeps for a root field: the document's string, else the default. */
  predicate KeptOrDefault(fields: map<string, Json.Value>, key: string, default: string, kept: string)
  {
    (key in fields ==> fields[key] == Json.Str(kept)) && (key !in fields ==> kept == default)
  }

  /** `_parse_config`: the slides, then the root fields with their defaults, then the configuration's own check. */
  function Parsed(data: Json.Value): (r: Result<PresentationConfig, LoaderError>)
    ensures !data.Obj? ==> r == Failure(MalformedRoot)
    ensures data.Obj? && "slides" in data.fields && !data.fields["slides"].Arr? ==> r == Failure(SlidesNotList)
    ensures data.Obj? && ("slides" !in data.fields || data.fields["slides"] == Json.Arr([])) ==>
              r == Failure(Unusable(EmptySlides))
    ensures data.Obj? && "slides" in data.fields && data.fields["slides"].Arr? &&
            ParseSlides(data.fields["slides"].items).Failure? ==>
              r == Failure(ParseSlides(data.fields["slides"].items).error)
    ensures r.Success? <==>
              && data.Obj? && "slides" in data.fields && data.fields["slides"].Arr?
              && data.fields["slides"].items != [] && ParseSlides(data.fields["slides"].items).Success?
              && TextOrAbsent(data.fields, "template_path") && TextOrAbsent(data.fields, "output_path")
              && TextOrAbsent(data.fields, "layout_name")
    ensures r.Success? ==> r.value.slides != [] && forall i | 0 <= i < |r.value.slides| :: r.value.slides[i].Valid()
    ensures r.Success? ==>
              && data.Obj? && "slides" in data.fields && data.fields["slides"].Arr?
              && r.value.slides == ParseSlides(data.fields["slides"].items).value
              && KeptOrDefault(data.fields, "template_path", Settings.DefaultTemplatePath, r.value.templatePath)
              && KeptOrDefault(data.fields, "output_path", Settings.DefaultOutputPath, r.value.outputPath)
              && KeptOrDefault(data.fields, "layout_name", Settings.DefaultLayoutName, r.value.layoutName)
  {
    if !data.Obj? then Failure(MalformedRoot)
    else
      var fields := data.fields;
      var slidesValue := Json.GetOr(fields, "slides", Json.Arr([]));
      if !slidesValue.Arr? then Failure(SlidesNotList)
      else
        match ParseSlides(slidesValue.items)
        case Failure(e) => Failure(e)
        case Success(slides) =>
          ParseSlidesValid(slidesValue.items);
          var template := RootText(fields, "template_path", Settings.DefaultTemplatePath);
          var output := RootText(fields, "output_path", Settings.DefaultOutputPath);
          var layout := RootText(fields, "layout_name", Settings.DefaultLayoutName);
          if slides == [] then Failure(Unusable(EmptySlides))
          else if template.Failure? then Failure(template.error)
          else if output.Failure? then Failure(output.error)
          else if layout.Failure? then Failure(layout.error)
          else Success(PresentationConfig(slides, template.value, output.value, layout.value))
  }

  /** A document that gives only its slides gets the default template, output and layout. */
  lemma SlidesOnlyDocument(items: seq<Json.Value>)
    requires items != [] && ParseSlides(items).Success?
    ensures Parsed(Json.Obj(map["slides" := Json.Arr(items)]))
            == Success(PresentationConfig(ParseSlides(items).value, Settings.DefaultTemplatePath,
                                          Settings.DefaultOutputPath, Settings.DefaultLayoutName))
  {
  }

  /** Every parsed slide passed its checks. */
  lemma {:induction false} ParseSlidesValid(items: seq<Json.Value>)
    ensures ParseSlides(items).Success? ==>
              forall i | 0 <= i < |items| ::
                ParseSlides(items).value[i].Valid() && ParseSlide(items[i]) == Success(ParseSlides(items).value[i])
    decreases |items|
  {
    if items != [] {
      var init := items[..|items| - 1];
      ParseSlidesValid(init);
      if ParseSlides(items).Success? {
        forall i | 0 <= i < |init| ensures items[i] == init[i] {
        }
      }
    }
  }

  /** `_parse_config` as the loop it is: parse entry by entry, stopping at the first failure. */
  method ParseConfig(data: Json.Value) returns (r: Result<PresentationConfig, LoaderError>)
    ensures r == Parsed(data)
  {
    if !data.Obj? {
      return Failure(MalformedRoot);
    }
    var fields := data.fields;
    var slidesValue := Json.GetOr(fields, "slides", Json.Arr([]));
    if !slidesValue.Arr? {
      return Failure(SlidesNotList);
    }
    var items := slidesValue.items;
    var slides: seq<SlideConfig> := [];
    var i := 0;
    while i < |items|
      invariant 0 <= i <= |items|
      invariant ParseSlides(items[..i]) == Success(slides)
    {
      var parsed := ParseSlide(items[i]);
      assert items[..i + 1][..i] == items[..i];
      if parsed.Failure? {
        assert ParseSlides(items[..i + 1]) == Failure(SlideFailed(i + 1, parsed.error));
        PrefixFailureIsFinal(items, i + 1);
        return Failure(SlideFailed(i + 1, parsed.error));
      }
      slides := slides + [parsed.value];
      i := i + 1;
    }
    assert items[..i] == items;
    var template := RootText(fields, "template_path", Settings.DefaultTemplatePath);
    var output := RootText(fields, "output_path", Settings.DefaultOutputPath);
    var layout := RootText(fields, "layout_name", Settings.DefaultLayoutName);
    if slides == [] {
      return Failure(Unusable(EmptySlides));
    }
    if template.Failure? {
      return Failure(template.error);
    }
    if output.Failure? {
      return Failure(output.error);
    }
    if layout.Failure? {
      return Failure(layout.error);
    }
    r := Success(PresentationConfig(slides, template.value, output.value, layout.value));
  }

  /** Once a prefix of the slide list fails, the whole list fails the same way. */
  lemma {:induction false} PrefixFailureIsFinal(items: seq<Json.Value>, n: nat)
    requires n <= |items| && ParseSlides(items[..n]).Failure?
    ensures ParseSlides(items) == ParseSlides(items[..n])
    decreases |items| - n
  {
    if n < |items| {
      var init := items[..|items| - 1];
      assert init[..n] == items[..n];
      PrefixFailureIsFinal(init, n);
    } else {
      assert items[..n] == items;
    }
  }

  /** Slide `k` is reported exactly when the slides before it parse and it does not. */
  lemma {:induction false} FirstFailingSlide(items: seq<Json.Value>, k: nat, fault: SlideFault)
    ensures ParseSlides(items) == Failure(SlideFailed(k, fault))
            <==> && 1 <= k <= |items|
                 && (forall i | 0 <= i < k - 1 :: ParseSlide(items[i]).Success?)
                 && ParseSlide(items[k - 1]) == Failure(fault)
    decreases |items|
  {
    if items != [] {
      var init := items[..|items| - 1];
      FirstFailingSlide(init, k, fault);
      ParseSlidesValid(init);
      assert forall i | 0 <= i < |init| :: init[i] == items[i];
      if ParseSlides(init).Failure? {
        var e := ParseSlides(init).error;
        FirstFailingSlide(init, e.position, e.fault);
      }
    }
  }

  /** The record `save` writes for one slide: the four schema fields. */
  function SlideRecord(s: SlideConfig): (v: Json.Value)
    ensures v.Obj? && v.fields.Keys == {"layout_type", "title", "notes_source", "images"}
  {
    Json.Obj(map["layout_type" := Json.Str(s.layoutType), "title" := Json.Str(s.title),
                 "notes_source" := Json.Str(s.notesSource), "images" := Json.Arr(Json.StrItems(s.images))])
  }

  /** The document `save` writes: the three root fields and the slide records in order. */
  function SaveDocument(c: PresentationConfig): (v: Json.Value)
    ensures v.Obj? && v.fields.Keys == {"template_path", "output_path", "layout_name", "slides"}
    ensures v.fields["slides"].Arr? && |v.fields["slides"].items| == |c.slides|
  {
    Json.Obj(map["template_path" := Json.Str(c.templatePath), "output_path" := Json.Str(c.outputPath),
                 "layout_name" := Json.Str(c.layoutName),
                 "slides" := Json.Arr(SlideRecords(c.slides))])
  }

  /** The slide records of `slides`, one per slide, in order. */
  function SlideRecords(slides: seq<SlideConfig>): (items: seq<Json.Value>)
    ensures |items| == |slides|
    ensures forall i | 0 <= i < |slides| :: items[i] == SlideRecord(slides[i])
  {
    seq(|slides|, i requires 0 <= i < |slides| => SlideRecord(slides[i]))
  }

  /** A saved slide record reads back as the same slide. */
  lemma ParseSlideRecord(s: SlideConfig)
    requires s.Valid()
    ensures ParseSlide(SlideRecord(s)) == Success(s)
  {
    Json.AsStringsOfStrItems(s.images);
  }

  /** The slide records of a list of valid slides read back as that list. */
  lemma {:induction false} ParseSlideRecords(slides: seq<SlideConfig>)
    requires forall i | 0 <= i < |slides| :: slides[i].Valid()
    ensures ParseSlides(SlideRecords(slides)) == Success(slides)
    decreases |slides|
  {
    var items := SlideRecords(slides);
    if slides != [] {
      var init := slides[..|slides| - 1];
      ParseSlideRecords(init);
      assert items[..|items| - 1] == SlideRecords(init);
      ParseSlideRecord(slides[|slides| - 1]);
      assert slides == init + [slides[|slides| - 1]];
    }
  }

  /** Round trip: loading what `save` writes gives back the same configuration. */
  lemma SaveThenLoad(c: PresentationConfig)
    requires c.slides != [] && forall i | 0 <= i < |c.slides| :: c.slides[i].Valid()
    ensures Parsed(SaveDocument(c)) == Success(c)
  {
    var doc := SaveDocument(c);
    var items := SlideRecords(c.slides);
    assert doc.fields["slides"] == Json.Arr(items);
    assert Json.GetOr(doc.fields, "slides", Json.Arr([])) == Json.Arr(items);
    ParseSlideRecords(c.slides);
    assert ParseSlides(items) == Success(c.slides);
    assert RootText(doc.fields, "template_path", Settings.DefaultTemplatePath) == Success(c.templatePath);
    assert RootText(doc.fields, "output_path", Settings.DefaultOutputPath) == Success(c.outputPath);
    assert RootText(doc.fields, "layout_name", Settings.DefaultLayoutName) == Success(c.layoutName);
  }

  /** A legacy record carrying `notes_text` reads exactly like the same record carrying `notes_source`. */
  lemma LegacyNotesMigrated(fields: map<string, Json.Value>, notes: string)
    requires "notes_source" !in fields && "notes_text" !in fields
    ensures ParseSlide(Json.Obj(fields["notes_text" := Json.Str(notes)]))
            == ParseSlide(Json.Obj(fields["notes_source" := Json.Str(notes)]))
  {
  }

  /** Keys other than the five a slide record is read from make no difference. */
  lemma OtherKeysIgnored(fields: map<string, Json.Value>, key: string, v: Json.Value)
    requires key !in {"layout_type", "title", "notes_source", "notes_text", "images"}
    ensures ParseSlide(Json.Obj(fields[key := v])) == ParseSlide(Json.Obj(fields))
  {
  }
}
