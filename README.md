# presentation_mcp — image-layout and slide-configuration engine, in Dafny

This project models the core of `presentation_mcp`, a generator that turns a
JSON description of a talk into a PowerPoint deck. The model covers:

- **Layout geometry** (`layout_registry.dfy`, `settings.dfy`). An image
  placement is a box in centimetres. A layout blueprint names a layout and
  carries one placement per expected image. The layout registry is an ordered,
  name-keyed store of blueprints, filled with six default blueprints.
- **The fit decision** (`image_processor.dfy`). Given an image's pixel size
  and a box, either the width is fixed to the box (when the image is
  relatively wider) or the height is (in every other case). The other
  dimension is left for the document to derive from the image's proportions.
- **Slide configurations.**
  - `slide_types.dfy`: the closed hierarchy of content and YouTube title
    slides, with fail-fast checks and `to_dict`.
  - `slide_factory.dfy`: the factory that dispatches on `slide_type`.
  - `config_schema.dfy`: the older flat schema and the warnings
    `validate_config` reports.
  - `config_loader.dfy`: the loader that reads a parsed JSON document into
    that schema, migrating the legacy `notes_text` field, and the document
    that saving writes.
- **Orchestration.**
  - `image_placer.dfy`: the image placer matches image i to placement i,
    ignores images beyond the placements, and records one error per image
    that fails.
  - `presentation_builder.dfy`: the presentation builder puts each slide on
    its template layout, fills the title, subtitle and slide-number
    placeholders, loads the notes and places the images. It records every
    failure against its slide and carries on with the next slide.
  - `resources.dfy`: the files both of them read, as values.
- **The command line** (`commands.dfy`): `parse_args`, as a decision on the
  argument list, with its two option loops.

Shared definitions:

- `wrappers.dfy`: `Option`, `Result` and `Outcome`.
- `json.dfy`: parsed JSON values, with Python's truthiness and `dict.get`.

### How the source is modelled

State that the source changes in place is modelled as classes:

- the registry's dictionary;
- the factory's class-level type table;
- the placer's and the builder's error lists.

Each state-changing method is proved equal to a pure transition or run
function. The lemmas are stated about those functions. Python's exceptions
become `Result` and `Outcome` failures that carry tagged values (the slide
number, the path, the layout name) in place of the Russian message texts. An
insertion-ordered `dict` is modelled as a map plus the sequence of its keys.

The document is modelled as a sequence of slides, and a template as a list
of layouts with their placeholder indices. The file system is modelled as a
value with these parts:

- which image paths exist, and their pixel sizes;
- which WebP files fail to convert;
- the Markdown notes files.

### Notes on the source

- The docstring of `calculate_smart_dimensions`
  (core/image_processor.py:43-45) says a 1920×1080 image in a 20×10 box
  gets its width fixed. The code fixes the height, because 16/9 < 2. The
  model follows the code (`ImageProcessor.WideImageExample`).
- The docstring of `register_default_layouts` (config/settings.py:24) lists
  four layouts. The function registers six.
- core/presentation_builder.py:24-26 imports
  `PLACEHOLDER_TITLE_LAYOUT_TITLE_IDX`, `PLACEHOLDER_TITLE_LAYOUT_SLIDE_NUM_IDX`
  and `PLACEHOLDER_TITLE_LAYOUT_SUBTITLE_IDX` from `config`. Neither
  config/__init__.py nor config/settings.py defines them: settings.py defines
  only the two indices at lines 120-121. As written, that import fails when
  the module is loaded. The model takes the three indices as parameters of
  the builder's setup.

## Model

| member | source | states |
|---|---|---|
| Layouts.PlacementToDict | models/layout_registry.py:35-52 | the dictionary has exactly the keys left, top, max_width and max_height, each holding its field unchanged |
| Layouts.PlacementToDictInjective | models/layout_registry.py:35-52 | two placements with equal dictionaries are equal (the dictionary loses nothing) |
| Layouts.NewBlueprint | models/layout_registry.py:83-89 | construction succeeds exactly when the number of placements equals `required_images`; a failure names the layout, the count and the required number |
| Layouts.Without | models/layout_registry.py:202 | deleting a name from the key order keeps exactly the other names, without repeats if there were none, and never lengthens the order |
| Layouts.LayoutTable.Register | models/layout_registry.py:122-141 | fails exactly when the name is taken, with a duplicate error and the table unchanged; otherwise the blueprint is stored under its name and the name is appended to the order; the table invariant is preserved |
| Layouts.LayoutTable.Get | models/layout_registry.py:143-166 | succeeds exactly when the name is registered and returns the blueprint stored under it; a failure lists every registered name in order |
| Layouts.LayoutTable.Exists | models/layout_registry.py:168-178 | true exactly when the name is among the listed names |
| Layouts.LayoutTable.ListAll | models/layout_registry.py:180-187 | every registered name exactly once, and nothing else |
| Layouts.LayoutTable.Unregister | models/layout_registry.py:189-202 | fails exactly when the name is absent; otherwise the name is gone, the order loses only that name, and every other name keeps its blueprint |
| Layouts.EmptyTableIsEmpty | models/layout_registry.py:204-206 | the cleared table is valid, lists nothing and contains no name |
| Layouts.RegisterThenGet | models/layout_registry.py:122-166 | registering a new blueprint succeeds, `get` of its name then returns it, and the listing grows by that name at the end |
| Layouts.ExistsTracksHistory | models/layout_registry.py:168-178 | registering makes the name exist, unregistering makes it absent, and neither changes whether any other name exists |
| Layouts.LayoutRegistry.constructor | models/layout_registry.py:118-120 | a new registry is empty |
| Layouts.LayoutRegistry.Register | models/layout_registry.py:122-141 | the outcome and the new dictionary are the table transition's, and the invariant is kept |
| Layouts.LayoutRegistry.Get | models/layout_registry.py:143-166 | succeeds exactly for listed names and returns the blueprint stored under the name; otherwise lists every registered name |
| Layouts.LayoutRegistry.Exists | models/layout_registry.py:168-178 | true exactly when the name is listed |
| Layouts.LayoutRegistry.ListAll | models/layout_registry.py:180-187 | the registered names, each once, in registration order |
| Layouts.LayoutRegistry.Unregister | models/layout_registry.py:189-202 | an absent name fails and changes nothing; a present one leaves the table transition's result |
| Layouts.LayoutRegistry.Clear | models/layout_registry.py:204-206 | the registry is empty and valid afterwards |
| Settings.RegisterEach | config/settings.py:37-111 | registering blueprints one after another keeps the registry valid |
| Settings.RegisterDefaultLayouts | config/settings.py:10-111 | the outcome and the new registry are those of registering the six default blueprints in order, stopping at the first failure |
| Settings.DefaultCounts | config/settings.py:29-110 | every default blueprint has as many placements as required images; the counts are 1, 1, 2, 2, 3, 1 and the names are single_wide, single_tall, two_stack, two_tall_row, three_stack, title_youtube |
| Settings.TitleYouTubeSlot | config/settings.py:108 | the title_youtube slot is left 14.41, top 0.0, at most 19.46 × 19.05 |
| Settings.RegisterEachFresh | config/settings.py:37-111 | blueprints with distinct names not yet registered all register, and the listing grows by their names in order |
| Settings.DefaultsOnEmptyRegistry | config/settings.py:29-111 | on an empty registry the defaults all register and `list_all` is exactly the six names in order |
| Settings.DefaultsTwiceFails | config/settings.py:37 | a second call fails at single_wide and leaves the registry as the first call left it |
| Settings.RegisterEachKeeps | config/settings.py:37-96 | a name registered before the call keeps its blueprint whatever happens later (no rollback) |
| Settings.RegisterEachStopsAtDuplicate | config/settings.py:37-111 | when the first k names are fresh and the next one is taken, the call fails with that name |
| Settings.RegisterEachKeepsFreshPrefix | config/settings.py:37-96 | in that case the k blueprints before the taken one stay registered, in order |
| Settings.ThreeStackTaken | config/settings.py:37-96 | if three_stack is already present, the call fails at three_stack and the first four defaults stay registered |
| ImageProcessor.SmartDimensions | core/image_processor.py:17-81 | `(None, None)` exactly when the image height or the box height is zero; otherwise exactly one dimension is set, and it equals the box's bound |
| ImageProcessor.WidthFixedIffWider | core/image_processor.py:71-81 | the width is fixed exactly when the image ratio exceeds the box ratio, and the height exactly when it does not (ties go to the height) |
| ImageProcessor.RenderedSize | core/image_processor.py:74-81 | a derived dimension keeps the image's aspect ratio |
| ImageProcessor.FitsInsideBox | core/image_processor.py:71-81 | the fitted picture lies inside the box, touches it on the fixed side, keeps its proportions, and with the width fixed has a strictly smaller height than the box |
| ImageProcessor.TallImageExample | core/image_processor.py:47-49 | 1080×1920 in a 10×15 box gives `(None, 15.0)` |
| ImageProcessor.WideImageExample | core/image_processor.py:43-45 | 1920×1080 in a 20×10 box gives `(None, 10.0)`, as the code does, not the docstring |
| ImageProcessor.TieFixesHeight | core/image_processor.py:78-81 | equal ratios give `(None, max_height)` |
| SlideTypes.NewContentSlide | models/slide_types.py:50-67 | a content slide is built exactly when title and layout type are non-empty; an empty title is reported first, then an empty layout type; the variant adds no check |
| SlideTypes.NormaliseLayoutName | models/slide_types.py:172-177 | a missing or empty layout name becomes TitleLayout, and a non-empty one is kept |
| SlideTypes.NewYouTubeTitleSlide | models/slide_types.py:166-206 | a title slide is built exactly when title, layout type and subtitle are non-empty, there is exactly one image, and the normalised layout name is TitleLayout; the errors come in that order, so a well-formed slide that names another layout fails with exactly the wrong-layout error |
| SlideTypes.ConstructorsKeepValidSlides | models/slide_types.py:50-67 | rebuilding a valid slide from its own fields gives the same slide |
| SlideTypes.ToDict | models/slide_types.py:82-96 | the dictionary holds the slide type and the five base fields, and for a title slide also subtitle and series_number, each with the slide's value |
| SlideFactory.Construct | models/slide_factory.py:82-88 | unknown or missing keyword fields are refused as bad arguments; with well-typed arguments the result is the dispatched class's constructor applied to every field (notes, images, layout name, subtitle and series number included, absent ones at their defaults), and a failing check comes back as that check's own error; a built slide is valid and carries the record's title and layout type |
| SlideFactory.RequestedType | models/slide_factory.py:64-68 | a missing or false `slide_type` gives exactly the content type; a true one is used as given |
| SlideFactory.CreateWith | models/slide_factory.py:44-88 | an unregistered type fails, listing every registered type; a registered one builds from the record without `slide_type` |
| SlideFactory.CreateInvertsToDict | models/slide_factory.py:44-88 | `create(to_dict(s))` gives back `s` for every valid slide |
| SlideFactory.UntypedRecordBuildsContent | models/slide_factory.py:64-68 | a record with no `slide_type`, or a false one, is built as a content slide |
| SlideFactory.RegisteredTypeDispatches | models/slide_factory.py:70-80 | after registering a type, a record naming it is built by the class registered for it |
| SlideFactory.SlideConfigFactory.constructor | models/slide_factory.py:39-42 | the initial table is exactly content and title_youtube |
| SlideFactory.SlideConfigFactory.Create | models/slide_factory.py:44-88 | the built slide is valid, and an unknown type lists the registered types |
| SlideFactory.SlideConfigFactory.Register | models/slide_factory.py:90-115 | fails exactly on an existing type, leaving the table unchanged; otherwise adds the type at the end |
| SlideFactory.SlideConfigFactory.GetRegisteredTypes | models/slide_factory.py:117-129 | every registered type exactly once, in registration order |
| ConfigSchema.NewSlideConfig | models/config_schema.py:43-50 | a slide is built exactly when layout type, title and notes source are non-empty; the errors come in that order |
| ConfigSchema.ImagesDefaultToEmpty | models/config_schema.py:41 | a slide built without images has the empty image list |
| ConfigSchema.FromRecord | models/config_schema.py:101-103 | a record with unknown or missing fields is refused; with well-typed values the result is the slide constructor applied to the four fields (images defaulting to none), its check errors passed on; a converted slide is valid and keeps the record's title |
| ConfigSchema.ConvertEntries | models/config_schema.py:100-103 | conversion succeeds exactly when every entry converts, keeps the length, and puts entry i's slide at position i |
| ConfigSchema.NewPresentationConfig | models/config_schema.py:95-103 | no slides is refused; otherwise the converted slides and the given root fields are kept |
| ConfigSchema.NewPresentationConfigWithDefaults | models/config_schema.py:90-93 | the root defaults are template.pptx, output.pptx and VideoLayout |
| ConfigSchema.Titles | models/config_schema.py:128 | the titles of the slides, position by position |
| ConfigSchema.NoImageWarnings | models/config_schema.py:134-136 | the no-image warnings carry 1-based positions within the slide list, no more warnings than slides |
| ConfigSchema.NoImageWarningsIncreasing | models/config_schema.py:134-136 | the warning positions strictly increase, so no slide is warned about twice |
| ConfigSchema.ValidateConfig | models/config_schema.py:109-138 | the loop returns exactly the duplicate-title warning followed by the no-image warnings |
| ConfigSchema.NoImageWarningsExact | models/config_schema.py:134-136 | slide k (1-based) is warned about exactly when it has no images, under its own title |
| ConfigSchema.RepeatedTitlesExact | models/config_schema.py:128-131 | a title is reported as duplicated exactly when two different slides carry it |
| ConfigSchema.CountAboveOne | models/config_schema.py:129 | a title counts more than once exactly when two positions hold it |
| ConfigSchema.WarningsEmptyIff | models/config_schema.py:125-138 | no warnings exactly when titles are pairwise distinct and every slide has an image |
| ConfigLoader.NotesValue | io_handlers/config_loader.py:127-129 | `notes_source` whenever it is present and not null, else `notes_text`, else "" |
| ConfigLoader.ParseSlide | io_handlers/config_loader.py:112-138 | a slide entry that is not an object fails; an object fails on a field's type exactly when its fields are not well typed; otherwise the result is the schema's slide built from `layout_type`, `title`, the notes (`notes_source`, else `notes_text`) and `images`, absent ones read as "" and [], so a missing or empty required field is the schema's error; a parsed slide passes the schema's checks |
| ConfigLoader.ParseSlides | io_handlers/config_loader.py:85-93 | success keeps the number of slides; a failure names a 1-based slide position within the list |
| ConfigLoader.Parsed | io_handlers/config_loader.py:63-110 | a root that is not an object fails, a `slides` that is not a list fails, the first failing slide's error is passed on, a missing `slides` or an empty list is the empty-slides error; otherwise it succeeds, with the slides parsed in input order and each root field taken from the document or, when absent, from the defaults template.pptx, output.pptx and VideoLayout |
| ConfigLoader.SlidesOnlyDocument | io_handlers/config_loader.py:96-101 | a document giving only its slides gets template.pptx, output.pptx and VideoLayout |
| ConfigLoader.ParseSlidesValid | io_handlers/config_loader.py:85-93 | slide i of a parsed list is the parse of entry i and is valid |
| ConfigLoader.ParseConfig | io_handlers/config_loader.py:63-110 | the append loop that stops at the first failing slide returns exactly the parse |
| ConfigLoader.PrefixFailureIsFinal | io_handlers/config_loader.py:86-93 | once a slide fails, later entries change nothing: parsing stops there |
| ConfigLoader.FirstFailingSlide | io_handlers/config_loader.py:86-93 | slide k is reported with its fault exactly when every slide before it parses and it does not |
| ConfigLoader.SlideRecord | io_handlers/config_loader.py:159-164 | a saved slide holds exactly layout_type, title, notes_source and images |
| ConfigLoader.SaveDocument | io_handlers/config_loader.py:154-167 | the saved document holds the three root fields and one record per slide |
| ConfigLoader.ParseSlideRecord | io_handlers/config_loader.py:127-136 | a saved slide record reads back as the same slide |
| ConfigLoader.ParseSlideRecords | io_handlers/config_loader.py:85-93 | the saved slide records read back as the same slides, in order |
| ConfigLoader.SaveThenLoad | io_handlers/config_loader.py:154-167 | loading what `save` writes gives back the same configuration |
| ConfigLoader.LegacyNotesMigrated | io_handlers/config_loader.py:126-129 | a record carrying `notes_text` reads exactly as the same record carrying `notes_source` |
| ConfigLoader.OtherKeysIgnored | io_handlers/config_loader.py:131-136 | keys other than the slide fields and `notes_text` (`slide_type`, `layout_name`, …) do not change the result |
| Resources.LoadNotes | io_handlers/resource_loader.py:67-79 | a source ending in ".md" is a file whose text is returned, or a not-found error; any other source is returned as the text |
| Resources.WebpSuffixIgnoresCase | core/placers/image_placer.py:149 | `.webp` is recognised in any letter case, and other suffixes are not |
| Placers.PlaceOne | core/placers/image_placer.py:127-233 | an image fails exactly when it is missing, its WebP conversion fails or it cannot be read, and the error names its path; a placed picture sits at the placement's corner with the size the fit decision gives for the placement's bounds |
| Placers.Attempts | core/placers/image_placer.py:113-122 | min(#images, #placements) images are tried, image i with placement i |
| Placers.EveryAttemptCounted | core/placers/image_placer.py:112-125 | each tried image gives exactly one error or one picture; there is a picture exactly when some image was placed |
| Placers.TargetLayout | core/placers/image_placer.py:84-89 | title slides use the title_youtube blueprint, other slides their layout type |
| Placers.PlacementRun | core/placers/image_placer.py:76-122 | a slide without images does nothing and consults no registry; an unknown blueprint fails, listing the registered names; otherwise the positional attempts |
| Placers.ImagePlacer.constructor | core/placers/image_placer.py:49-59 | a new placer has no errors |
| Placers.ImagePlacer.PlaceImages | core/placers/image_placer.py:62-125 | the result is true exactly when at least one picture was placed; an unknown blueprint leaves the error list unchanged; otherwise exactly the failed images' errors are appended, in order |
| Placers.ImagePlacer.GetErrors | core/placers/image_placer.py:235-242 | the accumulated errors (a value, so the caller holds a copy) |
| Placers.ImagePlacer.ClearErrors | core/placers/image_placer.py:244-247 | the error list is empty afterwards |
| Builder.Decimal | core/presentation_builder.py:231 | the slide-number text is a non-empty run of digits without a leading zero |
| Builder.DecimalRoundTrip | core/presentation_builder.py:231 | the slide-number text reads back as the number |
| Builder.FirstNamed | core/presentation_builder.py:398-413 | the position of the first layout with that name, or none exactly when no layout has it |
| Builder.FindLayout | core/presentation_builder.py:398-413 | the linear search returns exactly that position |
| Builder.EffectiveLayoutName | core/presentation_builder.py:130 | the slide's own layout name when non-empty, else the configuration's |
| Builder.IndicesFor | core/presentation_builder.py:206-215 | title slides use the title layout's title and number indices, others the builder's own |
| Builder.AddSlideSpec | core/presentation_builder.py:188-243 | the slide is added on the chosen layout; a missing title placeholder is the fault exactly when the title index is absent, and leaves a blank slide; a fault is never a missing layout; without a fault the slide carries the loaded notes and the placed pictures, and the image errors are the failed images' |
| Builder.DefaultPlaceholders | core/presentation_builder.py:61-66 | with the default indices 10 and 11, a content slide's title goes to placeholder 10 and its number to placeholder 11 when the layout has one, and nothing else is written |
| Builder.AddedSlideTexts | core/presentation_builder.py:217-235 | once the title placeholder exists, the added slide carries the title, subtitle and number texts, even when its notes or images fail afterwards |
| Builder.AddSlideFaults | core/presentation_builder.py:236-243 | once the title placeholder exists, unreadable notes are the fault (with their own error) and leave the notes empty; notes that load followed by a failed placement give the missing-blueprint fault with its error, and the slide keeps the loaded notes |
| Builder.PlaceholderTexts | core/presentation_builder.py:217-235 | with distinct indices the title goes to the variant's title placeholder, the subtitle to the subtitle placeholder when present, and the 1-based number to the number placeholder exactly when it exists (its absence is no error) |
| Builder.BuildRun | core/presentation_builder.py:126-149 | the document keeps the template's slides and gains at most one slide per configured slide |
| Builder.SlideNumbersArePositions | core/presentation_builder.py:126-147 | every slide error names the slide's 1-based position in the configuration and its title, whatever failed before it |
| Builder.EverySlideAddedOrReported | core/presentation_builder.py:133-147 | the document grows by the template's slides plus the configured slides, less the missing-layout reports |
| Builder.MissingLayoutReports | core/presentation_builder.py:133-147 | every missing-layout report names a slide whose layout the template lacks, and the reports follow slide order, so no slide is reported twice |
| Builder.MissingSlideReported | core/presentation_builder.py:130-139 | a slide whose layout the template lacks is reported under its 1-based number and title, and adds no slide |
| Builder.ReportedSlideMissing | core/presentation_builder.py:130-139 | a missing-layout report for slide k implies the template has no layout of that slide's name |
| Builder.SlideReportedIffMissing | core/presentation_builder.py:126-149 | slide k is reported with a missing layout exactly when the template has no layout of its name, and then adds no slide |
| Builder.SlideAddedInRun | core/presentation_builder.py:126-149 | when the template has slide k's layout, the slide it adds follows the slides added before it and holds its 1-based position as the slide-number text, even after earlier failures |
| Builder.BuildRunExtends | core/presentation_builder.py:126-149 | later slides never undo earlier ones: the run over a prefix is a prefix of the run, for document and errors alike |
| Builder.PresentationBuilder.constructor | core/presentation_builder.py:61-85 | a new builder has no errors and keeps its registry, files and placeholder indices |
| Builder.PresentationBuilder.Build | core/presentation_builder.py:87-159 | the document and the error list are exactly the build run's, whatever an earlier build left, so errors are reset on each build |
| Builder.PresentationBuilder.GetErrors | core/presentation_builder.py:179-186 | the errors of the last build |
| Builder.PresentationBuilder.AddSlide | core/presentation_builder.py:188-243 | the slide and fault are the specification's, and exactly its image errors are appended |
| Builder.PresentationBuilder.PlaceImages | core/presentation_builder.py:280-396 | an unknown blueprint is the slide's fault and leaves the error list alone; otherwise each failed image appends one error and the placed pictures are returned |
| Cli.Parse | cli/commands.py:215-288 | help exactly for no arguments or a help word; a missing argument exactly for a lone generate or analyze; an unknown command exactly otherwise; the file argument is the second argument |
| Cli.ExitCode | cli/commands.py:225-288 | help returns 0, a missing argument or unknown command returns 1 |
| Cli.ParseArgs | cli/commands.py:215-288 | the two index-driven option loops give exactly the parse |
| Cli.ScanRendered | cli/commands.py:243-256 | the generate loop reads a written option list as its options applied left to right |
| Cli.GenerateReadsOptions | cli/commands.py:243-256 | the last `-o`/`--output` and the last `-t`/`--template` win, and `-q`/`--quiet` turns verbose off |
| Cli.VerboseStaysOff | cli/commands.py:251-253 | once `-q`/`--quiet` is read, no later option turns verbose back on |
| Cli.NoOutputFlagKeepsOutput | cli/commands.py:243-256 | options without `-o`/`--output` leave the output path unchanged |
| Cli.NoTemplateFlagKeepsTemplate | cli/commands.py:243-256 | options without `-t`/`--template` leave the template path unchanged |
| Cli.GenerateLastWins | cli/commands.py:243-256 | wherever it stands, the last `-o`/`--output` gives the output path and the last `-t`/`--template` the template path, a `-q`/`--quiet` anywhere turns verbose off, and with no such flag the path stays unset |
| Cli.TrailingFlagSkipped | cli/commands.py:245-256 | an option flag left without a value at the end is skipped and changes nothing |
| Cli.ScanAnalyzeRendered | cli/commands.py:266-283 | the analyze loop reads a written option list as its options applied left to right |
| Cli.AnalyzeReadsOptions | cli/commands.py:266-283 | for every option list, the last `-l`/`--layout` wins, `--list` sets list_only, and any other word changes nothing |
| Cli.ListOnlyStays | cli/commands.py:276-278 | once `--list` is read, no later option clears list_only |
| Cli.NoLayoutOptionKeepsLayout | cli/commands.py:266-283 | options without `-l`/`--layout` leave the layout unchanged |
| Cli.AnalyzeLastWins | cli/commands.py:266-283 | wherever it stands, the last `-l`/`--layout` gives the layout, a `--list` anywhere sets list_only, and with no layout option the layout stays VideoLayout |
| Cli.AnalyzeTrailingFlagSkipped | cli/commands.py:272-281 | a `-l`/`--layout` left without a value at the end is skipped and changes nothing |
| Cli.AnalyzeExamples | cli/commands.py:266-283 | analyze defaults to VideoLayout with list_only false, shown on three concrete argument lists |

## Left out

- python-pptx is not modelled: loading the template, `add_slide`, placeholders, notes frames, `add_picture`, `Cm`/EMU conversion and `save`. The document is a sequence of slide values and the template a list of layouts. A template that fails to load is not modelled; `Build` takes the loaded template.
- Markdown cleaning of notes (core/markdown_cleaner.py) is an external library; notes are stored as loaded.
- core/placers/media_placer.py, core/logger.py, core/template_analyzer.py, mcp_server.py, main.py, one.py, two.py, three.py and models/examples.py are not part of this model (media XML patching, RPC, printing and prototype scripts).
- Path resolution (io_handlers/path_resolver.py) and file reads are file-system I/O: image and notes paths are keys of a file map, taken as already resolved.
- WebP conversion and the temporary-file deletion are I/O; a conversion is modelled only as succeeding or failing (one error).
- Reading an image with Pillow is I/O: pixel sizes are inputs. An unreadable image is placed by neither the placer nor the builder; the model records one add-picture error for it.
- Floating-point arithmetic is modelled with exact reals; rounding at exact ties of the two ratios is not reproduced.
- Printing, verbose messages, log lines and the exact Russian error texts are left out; errors are tagged values.
- The `cmd_generate`, `cmd_analyze` and `cmd_help` commands are I/O: `Cli.Parse` returns the command and its arguments, and a dispatched command's own exit code is not modelled.
- The title-layout placeholder indices are not exported by config/__init__.py: they are constructor parameters of the builder.
- The loader produces schema slides without `layout_name`, while the builder reads `layout_name`: the builder is modelled over the slide hierarchy of models/slide_types.py and takes the slides and the configuration's layout name directly.
- `series_number` on title slides is only printed by the builder and is not placed.
- Python's exception classes (`ValueError`, `KeyError`, `TypeError`) are not distinguished: each failure is a tagged error value.
- ConfigLoader.ParseSlide: a field value that is true but not a string (or an `images` value that is not a list of strings) is refused, whereas the source passes it on unchecked.
- ConfigLoader.Parsed: a root `template_path`, `output_path` or `layout_name` that is not a string is refused, whereas the source keeps it unchecked.
- SlideFactory.Construct: keyword values of the wrong type are refused as bad arguments, whereas the source's dataclasses accept them.
- ConfigSchema.FromRecord: a text value that is true but not a string, or an `images` value that is not a list of strings, is refused as bad arguments, whereas `SlideConfig(**record)` accepts it.
- Resources.IsWebp tests the end of the whole path rather than `Path.suffix`, so a file named exactly ".webp" counts as WebP here.
- The factory's type table is class-level state shared by every caller in the source; here it is the state of one factory object.
- The "fewer images than required" warnings of the placer and the builder are only logged and are not modelled.
