/**
 * Dispatch from a slide record to the slide class its `slide_type` names, through
 * a process-wide table of slide types that can be extended at run time.
 */
module SlideFactory {
  import opened Wrappers
  import Json
  import opened SlideTypes
  import Layouts

  datatype FactoryError =
    | UnknownSlideType(given: Json.Value, known: seq<string>)
    | BadArguments(slideType: string)
    | Invalid(reason: SlideError)
    | DuplicateSlideType(name: string)

  /** The fields each variant's constructor accepts (`slide_type` is not one of them). */
  const ContentFields: set<string> := {"layout_type", "title", "notes_source", "images", "layout_name"}
  const TitleFields: set<string> := ContentFields + {"subtitle", "series_number"}
  /** The fields without a default. */
  const RequiredFields: set<string> := {"layout_type", "title"}

  function AcceptedFields(v: Variant): set<string>
  {
    if v == ContentVariant then ContentFields else TitleFields
  }

  /**
   * A text field that the checks test with `not`: a string is taken as is and any
   * other false value (null, 0, an empty list) reads as the empty string.
   */
  function CheckedText(v: Json.Value): (r: Option<string>)
    ensures r.Some? && r.value != "" <==> v.Str? && v.s != ""
    ensures v.Str? ==> r == Some(v.s)
  {
    if v.Str? then Some(v.s) else if Json.Truthy(v) then None else Some("")
  }

  /** An optional string field: null is `None`. */
  function OptionalText(v: Json.Value): (r: Option<Option<string>>)
    ensures r.Some? <==> v.Null? || v.Str?
    ensures r.Some? ==> Json.OptionalStr(r.value) == v
  {
    match v
    case Null => Some(None)
    case Str(s) => Some(Some(s))
    case _ => None
  }

  /** The string a text argument reads as: the string itself, or "" when absent or another false value. */
  function TextArg(args: map<string, Json.Value>, key: string): string
  {
    if key in args && args[key].Str? then args[key].s else ""
  }

  /** An optional string argument: absent or null is `None`. */
  function NameArg(args: map<string, Json.Value>, key: string): Option<string>
  {
    if key in args && args[key].Str? then Some(args[key].s) else None
  }

  /** The `images` argument as strings: absent is the empty list. */
  function ImagesArg(args: map<string, Json.Value>): seq<string>
  {
    if "images" in args && Json.AsStrings(args["images"]).Some? then Json.AsStrings(args["images"]).value else []
  }

  /**
   * Keyword arguments the class accepts, with values of the types its fields hold:
   * text fields strings (or false values, which the checks read as empty), the
   * notes a string, `images` a list of strings, the optional fields null or strings.
   */
  predicate WellTypedArgs(v: Variant, args: map<string, Json.Value>)
  {
    && args.Keys <= AcceptedFields(v) && RequiredFields <= args.Keys
    && CheckedText(args["layout_type"]).Some? && CheckedText(args["title"]).Some?
    && ("notes_source" in args ==> args["notes_source"].Str?)
    && ("images" in args ==> Json.AsStrings(args["images"]).Some?)
    && ("layout_name" in args ==> OptionalText(args["layout_name"]).Some?)
    && (v == YouTubeTitleVariant ==>
          && ("subtitle" in args ==> CheckedText(args["subtitle"]).Some?)
          && ("series_number" in args ==> OptionalText(args["series_number"]).Some?))
  }

  /** A slide's own check failure, passed on as it is. */
  function Checked(made: Result<SlideConfig, SlideError>): (r: Result<SlideConfig, FactoryError>)
    ensures made.Success? ==> r == Success(made.value)
    ensures made.Failure? ==> r == Failure(Invalid(made.error))
  {
    match made
    case Success(s) => Success(s)
    case Failure(e) => Failure(Invalid(e))
  }

  /**
   * `slide_class(**args)`: the keyword arguments must name only fields of the
   * class and include the required ones, otherwise the call is refused; the
   * constructed slide's own checks then decide.
   */
  function Construct(v: Variant, args: map<string, Json.Value>): (r: Result<SlideConfig, FactoryError>)
    ensures !(args.Keys <= AcceptedFields(v)) || !(RequiredFields <= args.Keys) ==>
              r == Failure(BadArguments(if v == ContentVariant then ContentType else YouTubeTitleType))
    ensures r.Success? ==> r.value.Valid() && (r.value.ContentSlide? <==> v == ContentVariant)
    ensures r.Success? ==> args["title"] == Json.Str(r.value.title) && args["layout_type"] == Json.Str(r.value.layoutType)
    ensures r.Failure? && r.error.BadArguments? <==> !WellTypedArgs(v, args)
    ensures WellTypedArgs(v, args) && v == ContentVariant ==>
              r == Checked(NewContentSlide(TextArg(args, "layout_type"), TextArg(args, "title"),
                                           TextArg(args, "notes_source"), ImagesArg(args), NameArg(args, "layout_name")))
    ensures WellTypedArgs(v, args) && v == YouTubeTitleVariant ==>
              r == Checked(NewYouTubeTitleSlide(TextArg(args, "layout_type"), TextArg(args, "title"),
                                                TextArg(args, "notes_source"), ImagesArg(args),
                                                NameArg(args, "layout_name"), TextArg(args, "subtitle"),
                                                NameArg(args, "series_number")))
  {
    var name := if v == ContentVariant then ContentType else YouTubeTitleType;
    if !(args.Keys <= AcceptedFields(v)) || !(RequiredFields <= args.Keys) then Failure(BadArguments(name))
    else
      var layoutType := CheckedText(args["layout_type"]);
      var title := CheckedText(args["title"]);
      var notes := Json.GetOr(args, "notes_source", Json.Str(""));
      var images := Json.AsStrings(Json.GetOr(args, "images", Json.Arr([])));
      var layoutName := OptionalText(Json.GetOr(args, "layout_name", Json.Null));
      if layoutType.None? || title.None? || !notes.Str? || images.None? || layoutName.None? then
        Failure(BadArguments(name))
      else if v == ContentVariant then
        match NewContentSlide(layoutType.value, title.value, notes.s, images.value, layoutName.value)
        case Success(s) => Success(s)
        case Failure(e) => Failure(Invalid(e))
      else
        var subtitle := CheckedText(Json.GetOr(args, "subtitle", Json.Str("")));
        var series := OptionalText(Json.GetOr(args, "series_number", Json.Null));
        if subtitle.None? || series.None? then Failure(BadArguments(name))
        else
          match NewYouTubeTitleSlide(layoutType.value, title.value, notes.s, images.value, layoutName.value,
                                     subtitle.value, series.value)
          case Success(s) => Success(s)
          case Failure(e) => Failure(Invalid(e))
  }

  /** The `slide_type` a record asks for: a missing or false one means `content`. */
  function RequestedType(data: map<string, Json.Value>): (t: Json.Value)
    ensures t != Json.Str("") && Json.Truthy(t)
    ensures "slide_type" in data && Json.Truthy(data["slide_type"]) ==> t == data["slide_type"]
    ensures !("slide_type" in data && Json.Truthy(data["slide_type"])) ==> t == Json.Str(ContentType)
  {
    if "slide_type" in data && Json.Truthy(data["slide_type"]) then data["slide_type"] else Json.Str(ContentType)
  }

  /**
   * `create` over a given type table: resolve the requested type, refuse an unknown
   * one listing every registered type, and construct from a copy of the record
   * without its `slide_type`.
   */
  function CreateWith(registry: map<string, Variant>, types: seq<string>, data: map<string, Json.Value>)
    : (r: Result<SlideConfig, FactoryError>)
    ensures var t := RequestedType(data);
            (r.Failure? && r.error.UnknownSlideType?) <==> !(t.Str? && t.s in registry)
    ensures r.Failure? && r.error.UnknownSlideType? ==> r.error == UnknownSlideType(RequestedType(data), types)
    ensures var t := RequestedType(data);
            t.Str? && t.s in registry ==> r == Construct(registry[t.s], data - {"slide_type"})
  {
    var t := RequestedType(data);
    if !(t.Str? && t.s in registry) then Failure(UnknownSlideType(t, types))
    else Construct(registry[t.s], data - {"slide_type"})
  }

  const InitialRegistry: map<string, Variant> := map[ContentType := ContentVariant, YouTubeTitleType := YouTubeTitleVariant]
  const InitialTypes: seq<string> := [ContentType, YouTubeTitleType]

  /**
   * Every valid slide survives `to_dict` followed by `create`: the dictionary names
   * its own type, and its fields rebuild the same slide.
   */
  lemma {:induction false} CreateInvertsToDict(registry: map<string, Variant>, types: seq<string>, s: SlideConfig)
    requires s.Valid()
    requires ContentType in registry && registry[ContentType] == ContentVariant
    requires YouTubeTitleType in registry && registry[YouTubeTitleType] == YouTubeTitleVariant
    ensures CreateWith(registry, types, ToDict(s)) == Success(s)
  {
    var d := ToDict(s);
    var args := d - {"slide_type"};
    Json.AsStringsOfStrItems(s.images);
    assert RequestedType(d) == Json.Str(s.SlideType());
    ConstructorsKeepValidSlides(s);
    if s.ContentSlide? {
      assert args.Keys == ContentFields;
    } else {
      assert args.Keys == TitleFields;
    }
  }

  /** A record without a `slide_type`, or with a false one, builds a content slide. */
  lemma UntypedRecordBuildsContent(registry: map<string, Variant>, types: seq<string>, data: map<string, Json.Value>)
    requires ContentType in registry && registry[ContentType] == ContentVariant
    requires "slide_type" !in data || !Json.Truthy(data["slide_type"])
    ensures CreateWith(registry, types, data) == Construct(ContentVariant, data - {"slide_type"})
    ensures CreateWith(registry, types, data).Success? ==> CreateWith(registry, types, data).value.ContentSlide?
  {
  }

  /** A registered type is dispatched to the class registered for it. */
  lemma RegisteredTypeDispatches(registry: map<string, Variant>, types: seq<string>, t: string, v: Variant,
                                 data: map<string, Json.Value>)
    requires t != "" && "slide_type" in data && data["slide_type"] == Json.Str(t)
    ensures CreateWith(registry[t := v], types, data) == Construct(v, data - {"slide_type"})
  {
  }

  /**
   * The factory's class-level `_registry`: slide type names mapped to the slide
   * class they build, with the names in registration order.
   */
  class SlideConfigFactory {
    var registry: map<string, Variant>
    var types: seq<string>

    ghost predicate Valid()
      reads this
    {
      Layouts.Distinct(types) && (forall t :: t in registry <==> t in types)
    }

    /** The table as the program starts: `content` and `title_youtube`. */
    constructor ()
      ensures Valid() && registry == InitialRegistry && types == InitialTypes
    {
      registry := InitialRegistry;
      types := InitialTypes;
    }

    /** `create`: dispatch over the current table. */
    function Create(data: map<string, Json.Value>): (r: Result<SlideConfig, FactoryError>)
      reads this
      requires Valid()
      ensures r.Success? ==> r.value.Valid()
      ensures r.Failure? && r.error.UnknownSlideType? ==> r.error.known == GetRegisteredTypes()
    {
      CreateWith(registry, types, data)
    }

    /** `register`: a new type name is added; a taken one fails and changes nothing. */
    method Register(slideType: string, variant: Variant) returns (r: Outcome<FactoryError>)
      requires Valid()
      modifies this
      ensures Valid()
      ensures r.Fail? <==> slideType in old(registry)
      ensures r.Fail? ==> r.error == DuplicateSlideType(slideType) && registry == old(registry) && types == old(types)
      ensures r.Pass? ==> registry == old(registry)[slideType := variant] && types == old(types) + [slideType]
    {
      if slideType in registry {
        return Fail(DuplicateSlideType(slideType));
      }
      registry := registry[slideType := variant];
      types := types + [slideType];
      r := Pass;
    }

    /** `get_registered_types`: every registered name once, in registration order. */
    function GetRegisteredTypes(): (ts: seq<string>)
      reads this
      requires Valid()
      ensures Layouts.Distinct(ts)
      ensures forall t :: t in ts <==> t in registry
      ensures ts == types
    {
      types
    }
  }
}
