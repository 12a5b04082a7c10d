/** The default catalogue of image-geometry layouts and the template defaults. */
module Settings {
  import opened Wrappers
  import opened Layouts

  const DefaultTemplatePath: string := "template.pptx"
  const DefaultOutputPath: string := "output.pptx"
  const DefaultLayoutName: string := "VideoLayout"

  /** Placeholder indices of the title and the slide number in the default template layout. */
  const PlaceholderTitleIdx: nat := 10
  const PlaceholderSlideNumIdx: nat := 11

  /** The blueprints' descriptions, as the source writes them. */
  const SingleWideText: string := "Одно широкое изображение (горизонтальное)"
  const SingleTallText: string := "Одно высокое изображение (вертикальное)"
  const TwoStackText: string := "Два изображения друг под другом (вертикальный стек)"
  const TwoTallRowText: string := "Два высоких изображения рядом (горизонтальный ряд)"
  const ThreeStackText: string := "Три изображения друг под другом (вертикальный стек)"
  const TitleYouTubeText: string := "Титульный слайд YouTube (логотип в желтом квадрате справа)"

  const SingleWide: LayoutBlueprint :=
    Blueprint("single_wide", SingleWideText, 1, [Placement(10.2, 4.2, 20.0, 10.0)])
  const SingleTall: LayoutBlueprint :=
    Blueprint("single_tall", SingleTallText, 1, [Placement(10.46, 2.96, 11.2, 15.2)])
  const TwoStack: LayoutBlueprint :=
    Blueprint("two_stack", TwoStackText, 2,
      [Placement(10.16, 3.47, 18.4, 3.91), Placement(10.16, 11.0, 18.07, 4.58)])
  const TwoTallRow: LayoutBlueprint :=
    Blueprint("two_tall_row", TwoTallRowText, 2,
      [Placement(10.2, 2.4, 10.5, 14.5), Placement(21.89, 2.4, 10.5, 14.5)])
  const ThreeStack: LayoutBlueprint :=
    Blueprint("three_stack", ThreeStackText, 3,
      [Placement(10.16, 3.0, 18.4, 4.0), Placement(10.16, 7.5, 18.4, 4.0), Placement(10.16, 12.0, 18.4, 4.0)])
  const TitleYouTube: LayoutBlueprint :=
    Blueprint("title_youtube", TitleYouTubeText, 1, [Placement(14.41, 0.0, 19.46, 19.05)])

  /** The six default blueprints, in the order they are registered. */
  const DefaultBlueprints: seq<LayoutBlueprint> :=
    [SingleWide, SingleTall, TwoStack, TwoTallRow, ThreeStack, TitleYouTube]

  const DefaultNames: seq<string> :=
    ["single_wide", "single_tall", "two_stack", "two_tall_row", "three_stack", "title_youtube"]

  /**
   * Registers `bs` one after another; the first duplicate stops the run and is
   * reported, and whatever was registered before it stays registered.
   */
  function RegisterEach(t: LayoutTable, bs: seq<LayoutBlueprint>): (res: (Outcome<LayoutError>, LayoutTable))
    ensures t.Valid() ==> res.1.Valid()
    decreases |bs|
  {
    if bs == [] then (Pass, t)
    else
      var step := t.Register(bs[0]);
      if step.0.Fail? then (step.0, t) else RegisterEach(step.1, bs[1..])
  }

  /** `register_default_layouts`: six `register` calls in a row, the first failure propagating. */
  method RegisterDefaultLayouts(registry: LayoutRegistry) returns (r: Outcome<LayoutError>)
    requires registry.Valid()
    modifies registry
    ensures registry.Valid()
    ensures (r, registry.table) == RegisterEach(old(registry.table), DefaultBlueprints)
  {
    ghost var spec := RegisterEach(registry.table, DefaultBlueprints);
    RegisterEachStep(registry.table, DefaultBlueprints);
    r := registry.Register(SingleWide);
    if r.Fail? { return; }
    RegisterEachStep(registry.table, DefaultBlueprints[1..]);
    r := registry.Register(SingleTall);
    if r.Fail? { return; }
    RegisterEachStep(registry.table, DefaultBlueprints[2..]);
    r := registry.Register(TwoStack);
    if r.Fail? { return; }
    RegisterEachStep(registry.table, DefaultBlueprints[3..]);
    r := registry.Register(TwoTallRow);
    if r.Fail? { return; }
    RegisterEachStep(registry.table, DefaultBlueprints[4..]);
    r := registry.Register(ThreeStack);
    if r.Fail? { return; }
    RegisterEachStep(registry.table, DefaultBlueprints[5..]);
    r := registry.Register(TitleYouTube);
  }

  /** One step of a run, unfolded. */
  lemma RegisterEachStep(t: LayoutTable, bs: seq<LayoutBlueprint>)
    requires bs != []
    ensures RegisterEach(t, bs) == (if t.Register(bs[0]).0.Fail? then (t.Register(bs[0]).0, t)
                                    else RegisterEach(t.Register(bs[0]).1, bs[1..]))
  {
  }

  /** Every default blueprint has one placement per required image; the counts are 1, 1, 2, 2, 3, 1. */
  lemma DefaultCounts()
    ensures forall b | b in DefaultBlueprints :: |b.placements| == b.requiredImages
    ensures seq(6, i requires 0 <= i < 6 => DefaultBlueprints[i].requiredImages) == [1, 1, 2, 2, 3, 1]
    ensures seq(6, i requires 0 <= i < 6 => DefaultBlueprints[i].name) == DefaultNames
  {
  }

  /** The title-slide image slot. */
  lemma TitleYouTubeSlot()
    ensures TitleYouTube.placements == [Placement(14.41, 0.0, 19.46, 19.05)]
  {
  }

  /** The names of `bs`, in order. */
  function NamesOf(bs: seq<LayoutBlueprint>): (ns: seq<string>)
    ensures |ns| == |bs|
    ensures forall i | 0 <= i < |bs| :: ns[i] == bs[i].name
  {
    seq(|bs|, i requires 0 <= i < |bs| => bs[i].name)
  }

  /**
   * When none of the names of `bs` is taken and they are pairwise distinct, every
   * blueprint is registered and the names are appended in order.
   */
  lemma {:induction false} RegisterEachFresh(t: LayoutTable, bs: seq<LayoutBlueprint>)
    requires FreshNames(t, bs, |bs|)
    ensures RegisterEach(t, bs).0 == Pass
    ensures RegisterEach(t, bs).1.order == t.order + NamesOf(bs)
    decreases |bs|
  {
    if bs != [] {
      var t1 := FirstStep(t, bs, |bs|);
      RegisterEachFresh(t1, bs[1..]);
      NamesOfPrefix(bs, |bs|);
      assert bs[..|bs|] == bs && bs[1..][..|bs| - 1] == bs[1..];
      assert (t.order + [bs[0].name]) + NamesOf(bs[1..]) == t.order + ([bs[0].name] + NamesOf(bs[1..]));
    }
  }

  /** On an empty registry the defaults all register, and `list_all` gives the six names in order. */
  lemma DefaultsOnEmptyRegistry()
    ensures RegisterEach(EmptyTable, DefaultBlueprints).0 == Pass
    ensures RegisterEach(EmptyTable, DefaultBlueprints).1.ListAll() == DefaultNames
  {
    assert NamesOf(DefaultBlueprints) == DefaultNames;
    assert FreshNames(EmptyTable, DefaultBlueprints, 6);
    RegisterEachFresh(EmptyTable, DefaultBlueprints);
  }

  /** Registering the defaults a second time fails at the first name and changes nothing. */
  lemma DefaultsTwiceFails()
    ensures var once := RegisterEach(EmptyTable, DefaultBlueprints).1;
            RegisterEach(once, DefaultBlueprints) == (Fail(DuplicateLayout("single_wide")), once)
  {
    DefaultsOnEmptyRegistry();
    var once := RegisterEach(EmptyTable, DefaultBlueprints).1;
    assert "single_wide" in once.ListAll();
  }

  /**
   * No rollback: the run never removes or replaces a registered blueprint, so
   * whatever a failing run registered before the duplicate stays registered.
   */
  lemma {:induction false} RegisterEachKeeps(t: LayoutTable, bs: seq<LayoutBlueprint>)
    ensures forall n | n in t.byName :: n in RegisterEach(t, bs).1.byName && RegisterEach(t, bs).1.byName[n] == t.byName[n]
    decreases |bs|
  {
    if bs != [] {
      var step := t.Register(bs[0]);
      if step.0.Pass? {
        RegisterEachKeeps(step.1, bs[1..]);
      }
    }
  }

  /**
   * A run that meets a taken name after `k` fresh, pairwise distinct ones registers
   * those `k`, then fails naming the duplicate and stops.
   */
  lemma {:induction false} RegisterEachStopsAtDuplicate(t: LayoutTable, bs: seq<LayoutBlueprint>, k: nat)
    requires FreshThenTaken(t, bs, k)
    ensures RegisterEach(t, bs).0 == Fail(DuplicateLayout(bs[k].name))
    decreases k
  {
    if k > 0 {
      var t1 := FirstStep(t, bs, k);
      assert bs[1..][k - 1] == bs[k];
      RegisterEachStopsAtDuplicate(t1, bs[1..], k - 1);
    }
  }

  /** ... and leaves exactly those `k` names appended to the registration order. */
  lemma {:induction false} RegisterEachKeepsFreshPrefix(t: LayoutTable, bs: seq<LayoutBlueprint>, k: nat)
    requires FreshThenTaken(t, bs, k)
    ensures RegisterEach(t, bs).1.order == t.order + NamesOf(bs[..k])
    decreases k
  {
    if k > 0 {
      var t1 := FirstStep(t, bs, k);
      assert bs[1..][k - 1] == bs[k];
      RegisterEachKeepsFreshPrefix(t1, bs[1..], k - 1);
      NamesOfPrefix(bs, k);
      assert (t.order + [bs[0].name]) + NamesOf(bs[1..][..k - 1]) == t.order + ([bs[0].name] + NamesOf(bs[1..][..k - 1]));
    }
  }

  /** The first `k` names of `bs` are pairwise distinct and free in `t`. */
  ghost predicate FreshNames(t: LayoutTable, bs: seq<LayoutBlueprint>, k: nat)
  {
    && k <= |bs|
    && (forall i, j | 0 <= i < j < k :: bs[i].name != bs[j].name)
    && (forall i | 0 <= i < k :: bs[i].name !in t.byName)
  }

  /** ... and the name after them is taken. */
  ghost predicate FreshThenTaken(t: LayoutTable, bs: seq<LayoutBlueprint>, k: nat)
  {
    FreshNames(t, bs, k) && k < |bs| && bs[k].name in t.byName
  }

  /** The first step of a run over fresh names passes, and the rest of the run stays fresh. */
  lemma FirstStep(t: LayoutTable, bs: seq<LayoutBlueprint>, k: nat) returns (t1: LayoutTable)
    requires FreshNames(t, bs, k) && k > 0
    ensures t1.order == t.order + [bs[0].name]
    ensures RegisterEach(t, bs) == RegisterEach(t1, bs[1..])
    ensures FreshNames(t1, bs[1..], k - 1)
    ensures forall n | n in t.byName :: n in t1.byName
  {
    t1 := t.Register(bs[0]).1;
    assert t1.byName == t.byName[bs[0].name := bs[0]];
    forall i | 0 <= i < k - 1 ensures bs[1..][i].name !in t1.byName {
      assert bs[1..][i] == bs[i + 1];
    }
    forall i, j | 0 <= i < j < k - 1 ensures bs[1..][i].name != bs[1..][j].name {
      assert bs[1..][i] == bs[i + 1] && bs[1..][j] == bs[j + 1];
    }
  }

  lemma NamesOfPrefix(bs: seq<LayoutBlueprint>, k: nat)
    requires 0 < k <= |bs|
    ensures NamesOf(bs[..k]) == [bs[0].name] + NamesOf(bs[1..][..k - 1])
  {
    assert forall i | 0 < i < k :: bs[1..][..k - 1][i - 1] == bs[..k][i];
  }

  /**
   * When `three_stack` is already registered and the four layouts before it are
   * not, the run fails there and the four earlier defaults remain registered.
   */
  lemma ThreeStackTaken(t: LayoutTable)
    requires "three_stack" in t.byName
    requires "single_wide" !in t.byName && "single_tall" !in t.byName
    requires "two_stack" !in t.byName && "two_tall_row" !in t.byName
    ensures RegisterEach(t, DefaultBlueprints).0 == Fail(DuplicateLayout("three_stack"))
    ensures RegisterEach(t, DefaultBlueprints).1.order == t.order + DefaultNames[..4]
  {
    assert NamesOf(DefaultBlueprints[..4]) == DefaultNames[..4];
    RegisterEachStopsAtDuplicate(t, DefaultBlueprints, 4);
    RegisterEachKeepsFreshPrefix(t, DefaultBlueprints, 4);
  }
}
