/**
 * Placing a slide's images into its layout blueprint: image i goes into
 * placement i, images beyond the placements are ignored, and every image that
 * cannot be placed adds one error and the loop goes on.
 */
module Placers {
  import opened Wrappers
  import opened Layouts
  import opened ImageProcessor
  import opened Resources
  import SlideTypes

  /** A picture added to a slide: its file, its top-left corner and the size handed to the document. */
  datatype Picture = Picture(path: string, left: real, top: real, size: Dimensions)

  datatype ImageError =
    | ImageNotFound(path: string)
    | WebpConversionFailed(path: string)
    | AddPictureFailed(path: string)

  /** What happened to one image. */
  datatype Attempt = Placed(picture: Picture) | Failed(error: ImageError)

  /** `_place_single_image`: resolve, convert a WebP file, size the picture to the box, add it. */
  function PlaceOne(files: Files, path: string, p: Placement): (a: Attempt)
    ensures a.Failed? <==> path !in files.images || (IsWebp(path) && path in files.webpFailures)
                           || files.images[path].Unreadable?
    ensures a.Failed? ==> a.error.path == path
    ensures a.Placed? ==> a.picture.path == path && a.picture.left == p.left && a.picture.top == p.top
    ensures a.Placed? ==> a.picture.size == SmartDimensions(files.images[path].pixelWidth, files.images[path].pixelHeight,
                                                            p.maxWidth, p.maxHeight)
  {
    if path !in files.images then Failed(ImageNotFound(path))
    else if IsWebp(path) && path in files.webpFailures then Failed(WebpConversionFailed(path))
    else
      match files.images[path]
      case Unreadable => Failed(AddPictureFailed(path))
      case Readable(w, h) => Placed(Picture(path, p.left, p.top, SmartDimensions(w, h, p.maxWidth, p.maxHeight)))
  }

  function Min(a: nat, b: nat): nat { if a <= b then a else b }

  /** The images that are attempted, each with the placement at its own position. */
  function Attempts(files: Files, paths: seq<string>, placements: seq<Placement>): (tries: seq<Attempt>)
    ensures |tries| == Min(|paths|, |placements|)
    ensures forall i | 0 <= i < |tries| :: tries[i] == PlaceOne(files, paths[i], placements[i])
  {
    seq(Min(|paths|, |placements|), i requires 0 <= i < Min(|paths|, |placements|) => PlaceOne(files, paths[i], placements[i]))
  }

  /** The errors of a run of attempts, in order. */
  function ErrorsOf(tries: seq<Attempt>): seq<ImageError>
  {
    if tries == [] then []
    else ErrorsOf(tries[..|tries| - 1]) + (if tries[|tries| - 1].Failed? then [tries[|tries| - 1].error] else [])
  }

  /** The pictures of a run of attempts, in order. */
  function PicturesOf(tries: seq<Attempt>): seq<Picture>
  {
    if tries == [] then []
    else PicturesOf(tries[..|tries| - 1]) + (if tries[|tries| - 1].Placed? then [tries[|tries| - 1].picture] else [])
  }

  /** One error per failed attempt, one picture per placed one. */
  lemma {:induction false} EveryAttemptCounted(tries: seq<Attempt>)
    ensures |ErrorsOf(tries)| + |PicturesOf(tries)| == |tries|
    ensures |PicturesOf(tries)| > 0 <==> exists i | 0 <= i < |tries| :: tries[i].Placed?
    ensures |ErrorsOf(tries)| == |tries| <==> forall i | 0 <= i < |tries| :: tries[i].Failed?
    decreases |tries|
  {
    if tries != [] {
      var init := tries[..|tries| - 1];
      EveryAttemptCounted(init);
      assert forall i | 0 <= i < |init| :: init[i] == tries[i];
      if exists i | 0 <= i < |init| :: init[i].Placed? {
        var i :| 0 <= i < |init| && init[i].Placed?;
        assert tries[i].Placed?;
      }
    }
  }

  /** The blueprint every title slide's image goes into. */
  const TitleBlueprint: string := "title_youtube"

  /** The blueprint a slide's images are placed by: the title slide's fixed one, else its layout type. */
  function TargetLayout(cfg: SlideTypes.SlideConfig): (name: string)
    ensures cfg.YouTubeTitleSlide? ==> name == TitleBlueprint
    ensures cfg.ContentSlide? ==> name == cfg.layoutType
  {
    if cfg.YouTubeTitleSlide? then TitleBlueprint else cfg.layoutType
  }

  /**
   * What placing a slide's images does: nothing when it has none (the registry is
   * not consulted), the registry's error for an unknown layout, else the attempts.
   */
  function PlacementRun(table: LayoutTable, files: Files, cfg: SlideTypes.SlideConfig): (r: Result<seq<Attempt>, LayoutError>)
    requires table.Valid()
    ensures cfg.images == [] ==> r == Success([])
    ensures cfg.images != [] ==> (r.Failure? <==> !table.Exists(TargetLayout(cfg)))
    ensures r.Failure? ==> r.error == UnknownLayout(TargetLayout(cfg), table.ListAll())
    ensures cfg.images != [] && r.Success? ==>
              r.value == Attempts(files, cfg.images, table.byName[TargetLayout(cfg)].placements)
  {
    if cfg.images == [] then Success([])
    else
      match table.Get(TargetLayout(cfg))
      case Failure(e) => Failure(e)
      case Success(b) => Success(Attempts(files, cfg.images, b.placements))
  }

  /** The object that places images; `errors` accumulates across calls until cleared. */
  class ImagePlacer {
    const files: Files
    const layouts: LayoutRegistry
    var errors: seq<ImageError>

    constructor (files: Files, layouts: LayoutRegistry)
      ensures this.files == files && this.layouts == layouts && errors == []
    {
      this.files := files;
      this.layouts := layouts;
      errors := [];
    }

    /**
     * `place_images`: `placed` is true when at least one image went onto the slide,
     * `pictures` are the pictures added, and each failed image appended one error.
     * An unknown layout fails before any image is tried and leaves `errors` alone.
     */
    method PlaceImages(cfg: SlideTypes.SlideConfig) returns (r: Result<bool, LayoutError>, pictures: seq<Picture>)
      requires layouts.Valid()
      modifies this
      ensures var run := PlacementRun(layouts.table, files, cfg);
              && (run.Failure? ==> r == Failure(run.error) && pictures == [] && errors == old(errors))
              && (run.Success? ==> && r == Success(|PicturesOf(run.value)| > 0)
                                   && pictures == PicturesOf(run.value)
                                   && errors == old(errors) + ErrorsOf(run.value))
    {
      pictures := [];
      if cfg.images == [] {
        return Success(false), pictures;
      }
      var layoutType := TargetLayout(cfg);
      var found := layouts.Get(layoutType);
      if found.Failure? {
        return Failure(found.error), pictures;
      }
      var blueprint := found.value;
      ghost var all := Attempts(files, cfg.images, blueprint.placements);
      var successCount := 0;
      var i := 0;
      while i < |cfg.images|
        invariant 0 <= i <= Min(|cfg.images|, |blueprint.placements|)
        invariant pictures == PicturesOf(all[..i]) && successCount == |pictures|
        invariant errors == old(errors) + ErrorsOf(all[..i])
      {
        if i >= |blueprint.placements| {
          break;
        }
        var attempt := PlaceOne(files, cfg.images[i], blueprint.placements[i]);
        assert all[..i + 1][..i] == all[..i];
        if attempt.Placed? {
          pictures := pictures + [attempt.picture];
          successCount := successCount + 1;
        } else {
          errors := errors + [attempt.error];
        }
        i := i + 1;
      }
      assert all[..i] == all;
      r := Success(successCount > 0);
    }

    /** `get_errors`: the errors accumulated since construction or the last clear. */
    function GetErrors(): (r: seq<ImageError>)
      reads this
      ensures r == errors
    {
      errors
    }

    /** `clear_errors`. */
    method ClearErrors()
      modifies this
      ensures errors == []
    {
      errors := [];
    }
  }
}
