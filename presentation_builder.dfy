/**
 * The build of a presentation: every configured slide is put on its template
 * layout, titled, numbered, given its notes and its images, and any failure is
 * recorded against that slide while the run goes on with the next one.
 */
module Builder {
  import opened Wrappers
  import opened Layouts
  import opened Resources
  import opened Placers
  import SlideTypes
  import Settings

  /** A layout of the template: its name and the placeholder indices its slides carry. */
  datatype TemplateLayout = TemplateLayout(name: string, placeholders: set<nat>)

  /** A slide of the document: its layout, the text put in each placeholder, its notes and its pictures. */
  datatype DocSlide = DocSlide(layout: string, texts: map<nat, string>, notes: string, pictures: seq<Picture>)

  /** A loaded template: its layouts in order and the slides it already holds. */
  datatype Template = Template(layouts: seq<TemplateLayout>, slides: seq<DocSlide>)

  /** Placeholder indices of the title and the slide number. */
  datatype Indices = Indices(title: nat, slideNumber: nat)

  /** The title layout's placeholder indices, subtitle included. */
  datatype TitleLayoutIndices = TitleLayoutIndices(title: nat, slideNumber: nat, subtitle: nat)

  datatype SlideFault =
    | LayoutMissing(name: string, available: seq<string>)
    | TitlePlaceholderMissing(index: nat)
    | NotesUnavailable(notesError: NotesError)
    | BlueprintMissing(layoutError: LayoutError)

  datatype BuildError =
    | SlideFailed(number: nat, title: string, fault: SlideFault)
    | ImageFailed(error: ImageError)

  /** What a builder is set up with besides its layout registry. */
  datatype Setup = Setup(files: Files, regular: Indices, titleLayout: TitleLayoutIndices)

  /** The indices a builder uses when none are given: the configured title and slide-number placeholders. */
  const DefaultIndices: Indices := Indices(Settings.PlaceholderTitleIdx, Settings.PlaceholderSlideNumIdx)

  /** The decimal numeral of `n`, as `str(n)` writes it. */
  function Decimal(n: nat): (s: string)
    ensures |s| >= 1 && forall i | 0 <= i < |s| :: '0' <= s[i] <= '9'
    ensures n > 0 ==> s[0] != '0'
    decreases n
  {
    if n < 10 then [('0' as int + n) as char]
    else Decimal(n / 10) + [('0' as int + n % 10) as char]
  }

  /** The number a string of decimal digits denotes. */
  function DigitsValue(s: string): nat
    requires forall i | 0 <= i < |s| :: '0' <= s[i] <= '9'
  {
    if s == [] then 0
    else DigitsValue(s[..|s| - 1]) * 10 + (s[|s| - 1] as int - '0' as int)
  }

  /** The slide-number text reads back as the number: distinct numbers give distinct texts. */
  lemma {:induction false} DecimalRoundTrip(n: nat)
    ensures DigitsValue(Decimal(n)) == n
    decreases n
  {
    if n >= 10 {
      DecimalRoundTrip(n / 10);
      var s := Decimal(n);
      assert s[..|s| - 1] == Decimal(n / 10);
    }
  }

  /** The names of the template's layouts, as listed in the missing-layout error. */
  function LayoutNames(layouts: seq<TemplateLayout>): (names: seq<string>)
    ensures |names| == |layouts| && forall i | 0 <= i < |layouts| :: names[i] == layouts[i].name
  {
    seq(|layouts|, i requires 0 <= i < |layouts| => layouts[i].name)
  }

  /** `_find_layout`: the position of the first layout with that name, if any. */
  function FirstNamed(layouts: seq<TemplateLayout>, name: string): (r: Option<nat>)
    ensures r.None? <==> forall j | 0 <= j < |layouts| :: layouts[j].name != name
    ensures r.Some? ==> r.value < |layouts| && layouts[r.value].name == name
    ensures r.Some? ==> forall j | 0 <= j < r.value :: layouts[j].name != name
  {
    if layouts == [] then None
    else if layouts[0].name == name then Some(0)
    else
      match FirstNamed(layouts[1..], name)
      case None => None
      case Some(k) => Some(k + 1)
  }

  /** `_find_layout` as the linear search it is. */
  method FindLayout(layouts: seq<TemplateLayout>, name: string) returns (r: Option<nat>)
    ensures r == FirstNamed(layouts, name)
  {
    var i := 0;
    while i < |layouts|
      invariant 0 <= i <= |layouts|
      invariant forall j | 0 <= j < i :: layouts[j].name != name
    {
      if layouts[i].name == name {
        return Some(i);
      }
      i := i + 1;
    }
    return None;
  }

  /** The template layout a slide goes on: its own `layout_name` when non-empty, else the configuration's. */
  function EffectiveLayoutName(cfg: SlideTypes.SlideConfig, configLayout: string): (name: string)
    ensures cfg.layoutName.Some? && cfg.layoutName.value != "" ==> name == cfg.layoutName.value
    ensures cfg.layoutName.None? || cfg.layoutName.value == "" ==> name == configLayout
  {
    if cfg.layoutName.Some? && cfg.layoutName.value != "" then cfg.layoutName.value else configLayout
  }

  /** Title slides use the title layout's indices, every other slide the builder's own. */
  function IndicesFor(setup: Setup, cfg: SlideTypes.SlideConfig): (idx: Indices)
    ensures cfg.YouTubeTitleSlide? ==> idx == Indices(setup.titleLayout.title, setup.titleLayout.slideNumber)
    ensures cfg.ContentSlide? ==> idx == setup.regular
  {
    if cfg.YouTubeTitleSlide? then Indices(setup.titleLayout.title, setup.titleLayout.slideNumber) else setup.regular
  }

  /** The texts put on a slide once its title placeholder exists: title, subtitle, number, in that order. */
  function SlideTexts(setup: Setup, layout: TemplateLayout, cfg: SlideTypes.SlideConfig, number: nat): map<nat, string>
  {
    var idx := IndicesFor(setup, cfg);
    var titled := map[idx.title := cfg.title];
    var subtitled :=
      if cfg.YouTubeTitleSlide? && setup.titleLayout.subtitle in layout.placeholders
      then titled[setup.titleLayout.subtitle := cfg.subtitle] else titled;
    if idx.slideNumber in layout.placeholders then subtitled[idx.slideNumber := Decimal(number)] else subtitled
  }

  /** What adding one slide leaves: the document slide, the image errors, and the fault that stopped it, if any. */
  datatype SlideOutcome = SlideOutcome(slide: DocSlide, imageErrors: seq<ImageError>, fault: Option<SlideFault>)

  /**
   * `_add_slide`: the slide is added first; a missing title placeholder stops it
   * there, missing notes stop it after its texts, an unknown blueprint after its
   * notes; otherwise its images are placed.
   */
  function AddSlideSpec(table: LayoutTable, setup: Setup, layout: TemplateLayout, cfg: SlideTypes.SlideConfig, number: nat)
    : (o: SlideOutcome)
    requires table.Valid()
    ensures o.slide.layout == layout.name
    ensures o.fault == Some(TitlePlaceholderMissing(IndicesFor(setup, cfg).title))
            <==> IndicesFor(setup, cfg).title !in layout.placeholders
    ensures IndicesFor(setup, cfg).title !in layout.placeholders ==>
              o.slide == DocSlide(layout.name, map[], "", []) && o.imageErrors == []
    ensures o.fault.None? <==>
              && IndicesFor(setup, cfg).title in layout.placeholders
              && LoadNotes(setup.files, cfg.notesSource).Success?
              && PlacementRun(table, setup.files, cfg).Success?
    ensures o.fault.None? ==>
              && o.slide.notes == LoadNotes(setup.files, cfg.notesSource).value
              && o.slide.pictures == PicturesOf(PlacementRun(table, setup.files, cfg).value)
              && o.imageErrors == ErrorsOf(PlacementRun(table, setup.files, cfg).value)
    ensures o.fault.Some? ==> o.imageErrors == [] && o.slide.pictures == [] && !o.fault.value.LayoutMissing?
  {
    var idx := IndicesFor(setup, cfg);
    if idx.title !in layout.placeholders then
      SlideOutcome(DocSlide(layout.name, map[], "", []), [], Some(TitlePlaceholderMissing(idx.title)))
    else
      var texted := DocSlide(layout.name, SlideTexts(setup, layout, cfg, number), "", []);
      match LoadNotes(setup.files, cfg.notesSource)
      case Failure(e) => SlideOutcome(texted, [], Some(NotesUnavailable(e)))
      case Success(notes) =>
        match PlacementRun(table, setup.files, cfg)
        case Failure(e) => SlideOutcome(texted.(notes := notes), [], Some(BlueprintMissing(e)))
        case Success(tries) => SlideOutcome(texted.(notes := notes, pictures := PicturesOf(tries)), ErrorsOf(tries), None)
  }

  /** Once the title placeholder exists, the added slide carries the title, subtitle and number texts, whatever fails later. */
  lemma AddedSlideTexts(table: LayoutTable, setup: Setup, layout: TemplateLayout, cfg: SlideTypes.SlideConfig, number: nat)
    requires table.Valid()
    requires IndicesFor(setup, cfg).title in layout.placeholders
    ensures AddSlideSpec(table, setup, layout, cfg, number).slide.texts == SlideTexts(setup, layout, cfg, number)
  {
  }

  /**
   * Once the title placeholder exists, the fault is the first step that failed: unreadable
   * notes leave the notes empty, and a failed placement keeps the notes already read.
   */
  lemma AddSlideFaults(table: LayoutTable, setup: Setup, layout: TemplateLayout, cfg: SlideTypes.SlideConfig, number: nat)
    requires table.Valid()
    requires IndicesFor(setup, cfg).title in layout.placeholders
    ensures var o := AddSlideSpec(table, setup, layout, cfg, number);
            var notes := LoadNotes(setup.files, cfg.notesSource);
            && (notes.Failure? ==> o.fault == Some(NotesUnavailable(notes.error)) && o.slide.notes == "")
            && (notes.Success? && PlacementRun(table, setup.files, cfg).Failure? ==>
                  && o.fault == Some(BlueprintMissing(PlacementRun(table, setup.files, cfg).error))
                  && o.slide.notes == notes.value)
  {
  }

  /**
   * With distinct indices, the title sits in the variant's title placeholder, the
   * subtitle in the title layout's subtitle placeholder when it has one, and the
   * 1-based number in the number placeholder when it has one; a missing number
   * placeholder is no fault.
   */
  lemma PlaceholderTexts(setup: Setup, layout: TemplateLayout, cfg: SlideTypes.SlideConfig, number: nat)
    requires IndicesFor(setup, cfg).title != IndicesFor(setup, cfg).slideNumber
    requires cfg.YouTubeTitleSlide? ==>
               setup.titleLayout.subtitle != setup.titleLayout.title
               && setup.titleLayout.subtitle != setup.titleLayout.slideNumber
    ensures var texts := SlideTexts(setup, layout, cfg, number);
            var idx := IndicesFor(setup, cfg);
            && texts[idx.title] == cfg.title
            && (idx.slideNumber in layout.placeholders <==> idx.slideNumber in texts)
            && (idx.slideNumber in layout.placeholders ==> texts[idx.slideNumber] == Decimal(number))
            && (cfg.YouTubeTitleSlide? && setup.titleLayout.subtitle in layout.placeholders ==>
                  texts[setup.titleLayout.subtitle] == cfg.subtitle)
            && (cfg.ContentSlide? ==> texts.Keys <= {idx.title, idx.slideNumber})
  {
  }

  /**
   * A builder set up with the default indices titles a content slide in
   * placeholder 10 and numbers it in placeholder 11 when the layout has one.
   */
  lemma DefaultPlaceholders(files: Files, titleLayout: TitleLayoutIndices, layout: TemplateLayout,
                            cfg: SlideTypes.SlideConfig, number: nat)
    requires cfg.ContentSlide?
    ensures var texts := SlideTexts(Setup(files, DefaultIndices, titleLayout), layout, cfg, number);
            && texts[10] == cfg.title
            && (11 in layout.placeholders ==> texts[11] == Decimal(number))
            && texts.Keys <= {10, 11}
  {
    PlaceholderTexts(Setup(files, DefaultIndices, titleLayout), layout, cfg, number);
  }

  /** The errors one slide contributes, after its image errors. */
  function FaultErrors(number: nat, title: string, fault: Option<SlideFault>): seq<BuildError>
  {
    if fault.Some? then [SlideFailed(number, title, fault.value)] else []
  }

  function Wrapped(errors: seq<ImageError>): (r: seq<BuildError>)
    ensures |r| == |errors| && forall i | 0 <= i < |errors| :: r[i] == ImageFailed(errors[i])
  {
    seq(|errors|, i requires 0 <= i < |errors| => ImageFailed(errors[i]))
  }

  /**
   * The loop of `build` over the first `|slides|` slides: the document starts as
   * the template's slides, slide k (1-based) is added when its layout exists,
   * and its errors are appended in order.
   */
  function BuildRun(table: LayoutTable, setup: Setup, template: Template, slides: seq<SlideTypes.SlideConfig>,
                    configLayout: string): (res: (seq<DocSlide>, seq<BuildError>))
    requires table.Valid()
    ensures |template.slides| <= |res.0| <= |template.slides| + |slides|
  {
    if slides == [] then (template.slides, [])
    else
      var before := BuildRun(table, setup, template, slides[..|slides| - 1], configLayout);
      var cfg := slides[|slides| - 1];
      var number := |slides|;
      var name := EffectiveLayoutName(cfg, configLayout);
      match FirstNamed(template.layouts, name)
      case None =>
        (before.0, before.1 + [SlideFailed(number, cfg.title, LayoutMissing(name, LayoutNames(template.layouts)))])
      case Some(i) =>
        var o := AddSlideSpec(table, setup, template.layouts[i], cfg, number);
        (before.0 + [o.slide], before.1 + Wrapped(o.imageErrors) + FaultErrors(number, cfg.title, o.fault))
  }

  /** One step of the build loop, unfolded. */
  lemma BuildRunStep(table: LayoutTable, setup: Setup, template: Template, slides: seq<SlideTypes.SlideConfig>,
                     configLayout: string, i: nat)
    requires table.Valid() && i < |slides|
    ensures var before := BuildRun(table, setup, template, slides[..i], configLayout);
            var name := EffectiveLayoutName(slides[i], configLayout);
            BuildRun(table, setup, template, slides[..i + 1], configLayout) ==
              match FirstNamed(template.layouts, name)
              case None =>
                (before.0, before.1 + [SlideFailed(i + 1, slides[i].title, LayoutMissing(name, LayoutNames(template.layouts)))])
              case Some(j) =>
                var o := AddSlideSpec(table, setup, template.layouts[j], slides[i], i + 1);
                (before.0 + [o.slide], before.1 + Wrapped(o.imageErrors) + FaultErrors(i + 1, slides[i].title, o.fault))
  {
    assert slides[..i + 1][..i] == slides[..i];
  }

  /** Every slide error names a 1-based position in `slides` and the title of the slide there. */
  predicate NumbersArePositions(errors: seq<BuildError>, slides: seq<SlideTypes.SlideConfig>)
  {
    forall j | 0 <= j < |errors| && errors[j].SlideFailed? ::
      1 <= errors[j].number <= |slides| && slides[errors[j].number - 1].title == errors[j].title
  }

  /** Slide errors carry the slide's 1-based position in the configuration, whatever failed before it. */
  lemma {:induction false} SlideNumbersArePositions(table: LayoutTable, setup: Setup, template: Template,
                                                    slides: seq<SlideTypes.SlideConfig>, configLayout: string)
    requires table.Valid()
    ensures NumbersArePositions(BuildRun(table, setup, template, slides, configLayout).1, slides)
    decreases |slides|
  {
    if slides != [] {
      var init := slides[..|slides| - 1];
      SlideNumbersArePositions(table, setup, template, init, configLayout);
      assert forall k | 0 <= k < |init| :: init[k] == slides[k];
      var before := BuildRun(table, setup, template, init, configLayout).1;
      var errors := BuildRun(table, setup, template, slides, configLayout).1;
      var cfg := slides[|slides| - 1];
      assert before <= errors;
      forall j | 0 <= j < |errors| && errors[j].SlideFailed?
        ensures 1 <= errors[j].number <= |slides| && slides[errors[j].number - 1].title == errors[j].title
      {
        if j < |before| {
          assert errors[j] == before[j];
          assert before[j].SlideFailed?;
          var k := before[j].number;
          assert 1 <= k <= |init| && init[k - 1].title == before[j].title;
        } else {
          var name := EffectiveLayoutName(cfg, configLayout);
          match FirstNamed(template.layouts, name)
          case None =>
            assert errors == before + [SlideFailed(|slides|, cfg.title, LayoutMissing(name, LayoutNames(template.layouts)))];
          case Some(i) =>
            var o := AddSlideSpec(table, setup, template.layouts[i], cfg, |slides|);
            var tail := Wrapped(o.imageErrors) + FaultErrors(|slides|, cfg.title, o.fault);
            assert errors == before + tail;
            assert errors[j] == tail[j - |before|];
            assert j - |before| >= |o.imageErrors|;
        }
      }
    }
  }

  /** How many errors report a layout missing from the template. */
  function MissingLayoutCount(errors: seq<BuildError>): nat
  {
    if errors == [] then 0
    else MissingLayoutCount(errors[..|errors| - 1])
         + (if errors[|errors| - 1].SlideFailed? && errors[|errors| - 1].fault.LayoutMissing? then 1 else 0)
  }

  lemma {:induction false} MissingLayoutCountAppend(a: seq<BuildError>, b: seq<BuildError>)
    ensures MissingLayoutCount(a + b) == MissingLayoutCount(a) + MissingLayoutCount(b)
    decreases |b|
  {
    if b != [] {
      MissingLayoutCountAppend(a, b[..|b| - 1]);
      assert (a + b)[..|a + b| - 1] == a + b[..|b| - 1];
    } else {
      assert a + b == a;
    }
  }

  lemma {:induction false} NoMissingLayoutIn(number: nat, title: string, o: SlideOutcome)
    requires o.fault.None? || !o.fault.value.LayoutMissing?
    ensures MissingLayoutCount(Wrapped(o.imageErrors) + FaultErrors(number, title, o.fault)) == 0
  {
    var es := Wrapped(o.imageErrors) + FaultErrors(number, title, o.fault);
    NoneMissing(es);
  }

  lemma {:induction false} NoneMissing(es: seq<BuildError>)
    requires forall i | 0 <= i < |es| :: !(es[i].SlideFailed? && es[i].fault.LayoutMissing?)
    ensures MissingLayoutCount(es) == 0
    decreases |es|
  {
    if es != [] {
      NoneMissing(es[..|es| - 1]);
    }
  }

  /**
   * No slide is lost silently: each configured slide either adds one document
   * slide or is reported with a missing-layout error, and the run goes on.
   */
  lemma {:induction false} EverySlideAddedOrReported(table: LayoutTable, setup: Setup, template: Template,
                                                     slides: seq<SlideTypes.SlideConfig>, configLayout: string)
    requires table.Valid()
    ensures var res := BuildRun(table, setup, template, slides, configLayout);
            |res.0| + MissingLayoutCount(res.1) == |template.slides| + |slides|
    decreases |slides|
  {
    if slides != [] {
      var init := slides[..|slides| - 1];
      EverySlideAddedOrReported(table, setup, template, init, configLayout);
      var before := BuildRun(table, setup, template, init, configLayout);
      var cfg := slides[|slides| - 1];
      var name := EffectiveLayoutName(cfg, configLayout);
      match FirstNamed(template.layouts, name)
      case None =>
        var e := SlideFailed(|slides|, cfg.title, LayoutMissing(name, LayoutNames(template.layouts)));
        MissingLayoutCountAppend(before.1, [e]);
        assert [e][..0] == [];
      case Some(i) =>
        var o := AddSlideSpec(table, setup, template.layouts[i], cfg, |slides|);
        MissingLayoutCountAppend(before.1, Wrapped(o.imageErrors) + FaultErrors(|slides|, cfg.title, o.fault));
        NoMissingLayoutIn(|slides|, cfg.title, o);
        assert before.1 + Wrapped(o.imageErrors) + FaultErrors(|slides|, cfg.title, o.fault)
               == before.1 + (Wrapped(o.imageErrors) + FaultErrors(|slides|, cfg.title, o.fault));
    }
  }

  predicate IsMissingLayout(e: BuildError)
  {
    e.SlideFailed? && e.fault.LayoutMissing?
  }

  /**
   * Missing-layout errors name slides whose layout the template lacks, and come
   * in the order of the slides, so no slide is reported twice.
   */
  predicate MissingReportsExact(errors: seq<BuildError>, slides: seq<SlideTypes.SlideConfig>, template: Template,
                                configLayout: string)
  {
    && (forall j | 0 <= j < |errors| && IsMissingLayout(errors[j]) ::
          1 <= errors[j].number <= |slides|
          && FirstNamed(template.layouts, EffectiveLayoutName(slides[errors[j].number - 1], configLayout)).None?)
    && (forall i, j | 0 <= i < j < |errors| && IsMissingLayout(errors[i]) && IsMissingLayout(errors[j]) ::
          errors[i].number < errors[j].number)
  }

  /** Appending one slide's errors keeps the missing-layout reports exact. */
  lemma {:induction false} MissingReportsAppend(before: seq<BuildError>, tail: seq<BuildError>,
                                                init: seq<SlideTypes.SlideConfig>, cfg: SlideTypes.SlideConfig,
                                                template: Template, configLayout: string)
    requires MissingReportsExact(before, init, template, configLayout)
    requires forall t | 0 <= t < |tail| && IsMissingLayout(tail[t]) ::
               tail[t].number == |init| + 1 && FirstNamed(template.layouts, EffectiveLayoutName(cfg, configLayout)).None?
    requires forall t, u | 0 <= t < u < |tail| :: !(IsMissingLayout(tail[t]) && IsMissingLayout(tail[u]))
    ensures MissingReportsExact(before + tail, init + [cfg], template, configLayout)
  {
    var errors := before + tail;
    var slides := init + [cfg];
    forall j | 0 <= j < |errors| && IsMissingLayout(errors[j])
      ensures 1 <= errors[j].number <= |slides|
      ensures FirstNamed(template.layouts, EffectiveLayoutName(slides[errors[j].number - 1], configLayout)).None?
    {
      if j < |before| {
        assert errors[j] == before[j];
        assert slides[errors[j].number - 1] == init[errors[j].number - 1];
      } else {
        assert errors[j] == tail[j - |before|];
      }
    }
    forall i, j | 0 <= i < j < |errors| && IsMissingLayout(errors[i]) && IsMissingLayout(errors[j])
      ensures errors[i].number < errors[j].number
    {
      if j < |before| {
        assert errors[i] == before[i] && errors[j] == before[j];
      } else if i < |before| {
        assert errors[i] == before[i] && errors[j] == tail[j - |before|];
      } else {
        assert false;
      }
    }
  }

  /** A slide added to the document contributes image errors and at most a fault other than a missing layout. */
  lemma NoMissingInTail(number: nat, title: string, o: SlideOutcome)
    requires o.fault.None? || !o.fault.value.LayoutMissing?
    ensures var tail := Wrapped(o.imageErrors) + FaultErrors(number, title, o.fault);
            forall t | 0 <= t < |tail| :: !IsMissingLayout(tail[t])
  {
    var tail := Wrapped(o.imageErrors) + FaultErrors(number, title, o.fault);
    forall t | 0 <= t < |tail| ensures !IsMissingLayout(tail[t]) {
      if t >= |o.imageErrors| {
        assert tail[t] == FaultErrors(number, title, o.fault)[t - |o.imageErrors|];
      }
    }
  }

  lemma {:induction false} MissingLayoutReports(table: LayoutTable, setup: Setup, template: Template,
                                                slides: seq<SlideTypes.SlideConfig>, configLayout: string)
    requires table.Valid()
    ensures MissingReportsExact(BuildRun(table, setup, template, slides, configLayout).1, slides, template, configLayout)
    decreases |slides|
  {
    if slides != [] {
      var init := slides[..|slides| - 1];
      var cfg := slides[|slides| - 1];
      MissingLayoutReports(table, setup, template, init, configLayout);
      assert init + [cfg] == slides;
      var before := BuildRun(table, setup, template, init, configLayout).1;
      var name := EffectiveLayoutName(cfg, configLayout);
      match FirstNamed(template.layouts, name)
      case None =>
        var tail := [SlideFailed(|slides|, cfg.title, LayoutMissing(name, LayoutNames(template.layouts)))];
        MissingReportsAppend(before, tail, init, cfg, template, configLayout);
      case Some(i) =>
        var o := AddSlideSpec(table, setup, template.layouts[i], cfg, |slides|);
        var tail := Wrapped(o.imageErrors) + FaultErrors(|slides|, cfg.title, o.fault);
        NoMissingInTail(|slides|, cfg.title, o);
        MissingReportsAppend(before, tail, init, cfg, template, configLayout);
        assert BuildRun(table, setup, template, slides, configLayout).1 == before + tail;
    }
  }

  /** A slide whose layout the template lacks is reported, and adds no slide to the document. */
  lemma MissingSlideReported(table: LayoutTable, setup: Setup, template: Template,
                             slides: seq<SlideTypes.SlideConfig>, configLayout: string, k: nat)
    requires table.Valid() && k < |slides|
    requires FirstNamed(template.layouts, EffectiveLayoutName(slides[k], configLayout)).None?
    ensures SlideFailed(k + 1, slides[k].title,
                        LayoutMissing(EffectiveLayoutName(slides[k], configLayout), LayoutNames(template.layouts)))
            in BuildRun(table, setup, template, slides, configLayout).1
    ensures BuildRun(table, setup, template, slides[..k + 1], configLayout).0
            == BuildRun(table, setup, template, slides[..k], configLayout).0
  {
    var step := BuildRun(table, setup, template, slides[..k + 1], configLayout);
    var whole := BuildRun(table, setup, template, slides, configLayout);
    BuildRunStep(table, setup, template, slides, configLayout, k);
    BuildRunExtends(table, setup, template, slides, configLayout, k + 1);
    assert whole.1[|step.1| - 1] == step.1[|step.1| - 1];
  }

  /** Only a slide whose layout the template lacks is reported with a missing layout. */
  lemma ReportedSlideMissing(errors: seq<BuildError>, slides: seq<SlideTypes.SlideConfig>, template: Template,
                             configLayout: string, k: nat, e: BuildError)
    requires MissingReportsExact(errors, slides, template, configLayout)
    requires k < |slides| && e.SlideFailed? && e.number == k + 1 && e.fault.LayoutMissing? && e in errors
    ensures FirstNamed(template.layouts, EffectiveLayoutName(slides[k], configLayout)).None?
  {
    var p :| 0 <= p < |errors| && errors[p] == e;
    assert IsMissingLayout(errors[p]);
  }

  /**
   * Slide k (0-based) is reported with a missing layout exactly when the template
   * has no layout of its name, and then adds no slide to the document.
   */
  lemma SlideReportedIffMissing(table: LayoutTable, setup: Setup, template: Template,
                                slides: seq<SlideTypes.SlideConfig>, configLayout: string, k: nat)
    requires table.Valid() && k < |slides|
    ensures var name := EffectiveLayoutName(slides[k], configLayout);
            var found := FirstNamed(template.layouts, name);
            && (found.None? <==>
                  SlideFailed(k + 1, slides[k].title, LayoutMissing(name, LayoutNames(template.layouts)))
                  in BuildRun(table, setup, template, slides, configLayout).1)
            && (found.None? ==>
                  BuildRun(table, setup, template, slides[..k + 1], configLayout).0
                  == BuildRun(table, setup, template, slides[..k], configLayout).0)
  {
    var name := EffectiveLayoutName(slides[k], configLayout);
    var e := SlideFailed(k + 1, slides[k].title, LayoutMissing(name, LayoutNames(template.layouts)));
    if FirstNamed(template.layouts, name).None? {
      MissingSlideReported(table, setup, template, slides, configLayout, k);
    } else {
      var errors := BuildRun(table, setup, template, slides, configLayout).1;
      MissingLayoutReports(table, setup, template, slides, configLayout);
      if e in errors {
        ReportedSlideMissing(errors, slides, template, configLayout, k, e);
      }
    }
  }

  /**
   * When the template has a layout for slide k (0-based), the one slide it adds
   * stands right after the slides added before it, and carries its 1-based number
   * k + 1 in the number placeholder when the layout has the title and number
   * placeholders, whatever failed before it.
   */
  lemma SlideAddedInRun(table: LayoutTable, setup: Setup, template: Template, slides: seq<SlideTypes.SlideConfig>,
                        configLayout: string, k: nat, j: nat)
    requires table.Valid() && k < |slides|
    requires FirstNamed(template.layouts, EffectiveLayoutName(slides[k], configLayout)) == Some(j)
    ensures var before := BuildRun(table, setup, template, slides[..k], configLayout);
            var whole := BuildRun(table, setup, template, slides, configLayout);
            && |before.0| < |whole.0|
            && whole.0[|before.0|] == AddSlideSpec(table, setup, template.layouts[j], slides[k], k + 1).slide
            && (var idx := IndicesFor(setup, slides[k]);
                idx.title in template.layouts[j].placeholders && idx.slideNumber in template.layouts[j].placeholders ==>
                  whole.0[|before.0|].texts[idx.slideNumber] == Decimal(k + 1))
  {
    var before := BuildRun(table, setup, template, slides[..k], configLayout);
    var step := BuildRun(table, setup, template, slides[..k + 1], configLayout);
    var whole := BuildRun(table, setup, template, slides, configLayout);
    BuildRunStep(table, setup, template, slides, configLayout, k);
    BuildRunExtends(table, setup, template, slides, configLayout, k + 1);
    assert whole.0[|before.0|] == step.0[|before.0|];
    if IndicesFor(setup, slides[k]).title in template.layouts[j].placeholders {
      AddedSlideTexts(table, setup, template.layouts[j], slides[k], k + 1);
    }
  }

  /** Later slides never undo earlier ones: the run over a prefix is a prefix of the whole run. */
  lemma {:induction false} BuildRunExtends(table: LayoutTable, setup: Setup, template: Template,
                                           slides: seq<SlideTypes.SlideConfig>, configLayout: string, n: nat)
    requires table.Valid() && n <= |slides|
    ensures var part := BuildRun(table, setup, template, slides[..n], configLayout);
            var whole := BuildRun(table, setup, template, slides, configLayout);
            part.0 <= whole.0 && part.1 <= whole.1
    decreases |slides| - n
  {
    if n == |slides| {
      assert slides[..n] == slides;
    } else {
      var init := slides[..|slides| - 1];
      assert init[..n] == slides[..n];
      BuildRunExtends(table, setup, template, init, configLayout, n);
    }
  }

  /** The presentation builder; `errors` is its `_errors` list, reset by every build. */
  class PresentationBuilder {
    const layouts: LayoutRegistry
    const setup: Setup
    var errors: seq<BuildError>

    constructor (layouts: LayoutRegistry, files: Files, regular: Indices, titleLayout: TitleLayoutIndices)
      ensures this.layouts == layouts && setup == Setup(files, regular, titleLayout) && errors == []
    {
      this.layouts := layouts;
      setup := Setup(files, regular, titleLayout);
      errors := [];
    }

    /**
     * `build` once the template is loaded: the document and the errors are those
     * of the build loop, whatever errors an earlier build left.
     */
    method Build(template: Template, slides: seq<SlideTypes.SlideConfig>, configLayout: string)
      returns (doc: seq<DocSlide>)
      requires layouts.Valid()
      modifies this
      ensures (doc, errors) == BuildRun(layouts.table, setup, template, slides, configLayout)
    {
      errors := [];
      doc := template.slides;
      var i := 0;
      while i < |slides|
        invariant 0 <= i <= |slides|
        invariant (doc, errors) == BuildRun(layouts.table, setup, template, slides[..i], configLayout)
      {
        BuildRunStep(layouts.table, setup, template, slides, configLayout, i);
        var cfg := slides[i];
        var name := EffectiveLayoutName(cfg, configLayout);
        var found := FindLayout(template.layouts, name);
        if found.None? {
          errors := errors + [SlideFailed(i + 1, cfg.title, LayoutMissing(name, LayoutNames(template.layouts)))];
        } else {
          var slide, fault := AddSlide(template.layouts[found.value], cfg, i + 1);
          doc := doc + [slide];
          errors := errors + FaultErrors(i + 1, cfg.title, fault);
        }
        i := i + 1;
      }
      assert slides[..i] == slides;
    }

    /** `get_errors`: the errors of the last build. */
    function GetErrors(): (r: seq<BuildError>)
      reads this
      ensures r == errors
    {
      errors
    }

    /** `_add_slide`: the slide it adds and the fault that stopped it; image errors go to `errors`. */
    method AddSlide(layout: TemplateLayout, cfg: SlideTypes.SlideConfig, number: nat)
      returns (slide: DocSlide, fault: Option<SlideFault>)
      requires layouts.Valid()
      modifies this
      ensures var o := AddSlideSpec(layouts.table, setup, layout, cfg, number);
              slide == o.slide && fault == o.fault && errors == old(errors) + Wrapped(o.imageErrors)
    {
      var idx := IndicesFor(setup, cfg);
      if idx.title !in layout.placeholders {
        return DocSlide(layout.name, map[], "", []), Some(TitlePlaceholderMissing(idx.title));
      }
      slide := DocSlide(layout.name, SlideTexts(setup, layout, cfg, number), "", []);
      var notes := LoadNotes(setup.files, cfg.notesSource);
      if notes.Failure? {
        return slide, Some(NotesUnavailable(notes.error));
      }
      slide := slide.(notes := notes.value);
      var pictures;
      fault, pictures := PlaceImages(cfg);
      if fault.None? {
        slide := slide.(pictures := pictures);
      }
    }

    /**
     * `_place_images`: image i into placement i, extra images ignored, one error
     * per failed image; an unknown blueprint is the slide's fault.
     */
    method PlaceImages(cfg: SlideTypes.SlideConfig) returns (fault: Option<SlideFault>, pictures: seq<Picture>)
      requires layouts.Valid()
      modifies this
      ensures var run := PlacementRun(layouts.table, setup.files, cfg);
              && (run.Failure? ==> fault == Some(BlueprintMissing(run.error)) && pictures == [] && errors == old(errors))
              && (run.Success? ==> fault.None? && pictures == PicturesOf(run.value)
                                   && errors == old(errors) + Wrapped(ErrorsOf(run.value)))
    {
      pictures := [];
      fault := None;
      if cfg.images == [] {
        return;
      }
      var found := layouts.Get(TargetLayout(cfg));
      if found.Failure? {
        return Some(BlueprintMissing(found.error)), pictures;
      }
      var blueprint := found.value;
      ghost var all := Attempts(setup.files, cfg.images, blueprint.placements);
      var i := 0;
      while i < |cfg.images|
        invariant 0 <= i <= Min(|cfg.images|, |blueprint.placements|)
        invariant pictures == PicturesOf(all[..i])
        invariant errors == old(errors) + Wrapped(ErrorsOf(all[..i]))
      {
        if i >= |blueprint.placements| {
          break;
        }
        var attempt := PlaceOne(setup.files, cfg.images[i], blueprint.placements[i]);
        assert all[..i + 1][..i] == all[..i];
        if attempt.Placed? {
          pictures := pictures + [attempt.picture];
        } else {
          assert Wrapped(ErrorsOf(all[..i + 1])) == Wrapped(ErrorsOf(all[..i])) + [ImageFailed(attempt.error)];
          errors := errors + [ImageFailed(attempt.error)];
        }
        i := i + 1;
      }
      assert all[..i] == all;
    }
  }
}
