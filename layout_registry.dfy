/**
 * Image-geometry layouts: a placement is one bounding box on a slide (centimetres),
 * a blueprint names a layout and lists one placement per expected image, and the
 * registry is a name-keyed store of blueprints that remembers registration order.
 */
module Layouts {
  import opened Wrappers

  /** One bounding box: position and size bounds, all in centimetres. */
  datatype Placement = Placement(left: real, top: real, maxWidth: real, maxHeight: real)

  const PlacementKeys: set<string> := {"left", "top", "max_width", "max_height"}

  /** `ImagePlacement.to_dict`: the four fields under their snake_case names, unchanged. */
  function PlacementToDict(p: Placement): (d: map<string, real>)
    ensures d.Keys == PlacementKeys
    ensures d["left"] == p.left && d["top"] == p.top
    ensures d["max_width"] == p.maxWidth && d["max_height"] == p.maxHeight
  {
    map["left" := p.left, "top" := p.top, "max_width" := p.maxWidth, "max_height" := p.maxHeight]
  }

  /** The dictionary loses nothing: two placements with the same dictionary are equal. */
  lemma PlacementToDictInjective(p: Placement, q: Placement)
    requires PlacementToDict(p) == PlacementToDict(q)
    ensures p == q
  {
    assert PlacementToDict(p)["left"] == PlacementToDict(q)["left"];
    assert PlacementToDict(p)["top"] == PlacementToDict(q)["top"];
    assert PlacementToDict(p)["max_width"] == PlacementToDict(q)["max_width"];
    assert PlacementToDict(p)["max_height"] == PlacementToDict(q)["max_height"];
  }

  datatype Blueprint = Blueprint(name: string, description: string, requiredImages: int, placements: seq<Placement>)
  {
    /** The construction-time check: one placement per required image. */
    predicate WellFormed() { |placements| == requiredImages }
  }

  /** A blueprint as it can exist once constructed: its check has passed. */
  type LayoutBlueprint = b: Blueprint | b.WellFormed() witness Blueprint("", "", 0, [])

  datatype LayoutError =
    | PlacementCountMismatch(layout: string, placements: nat, required: int)
    | DuplicateLayout(name: string)
    | UnknownLayout(name: string, available: seq<string>)
    | NotRegistered(name: string)

  /** `LayoutBlueprint(...)` with its `__post_init__` check. */
  function NewBlueprint(name: string, description: string, requiredImages: int, placements: seq<Placement>)
    : (r: Result<LayoutBlueprint, LayoutError>)
    ensures r.Success? <==> |placements| == requiredImages
    ensures r.Success? ==> r.value == Blueprint(name, description, requiredImages, placements)
    ensures r.Failure? ==> r.error == PlacementCountMismatch(name, |placements|, requiredImages)
  {
    var b := Blueprint(name, description, requiredImages, placements);
    if b.WellFormed() then Success(b) else Failure(PlacementCountMismatch(name, |placements|, requiredImages))
  }

  predicate Distinct(s: seq<string>)
  {
    forall i, j | 0 <= i < j < |s| :: s[i] != s[j]
  }

  /** `names` with every occurrence of `n` removed, the others kept in order. */
  function Without(names: seq<string>, n: string): (r: seq<string>)
    ensures forall m :: m in r <==> m in names && m != n
    ensures Distinct(names) ==> Distinct(r)
    ensures |r| <= |names|
  {
    if names == [] then []
    else if names[0] == n then Without(names[1..], n)
    else
      var rest := Without(names[1..], n);
      assert Distinct(names) ==> Distinct(names[1..]) && names[0] !in names[1..] by {
        if Distinct(names) {
          forall k | 0 <= k < |names[1..]| ensures names[1..][k] != names[0] {
            assert names[1..][k] == names[k + 1];
          }
        }
      }
      [names[0]] + rest
  }

  /**
   * The registry's ordered dictionary: blueprints by name, and the names in the
   * order they were inserted (the order Python's dict iterates its keys in).
   */
  datatype LayoutTable = LayoutTable(byName: map<string, LayoutBlueprint>, order: seq<string>)
  {
    ghost predicate Valid()
    {
      && Distinct(order)
      && (forall n :: n in byName <==> n in order)
      && (forall n | n in byName :: byName[n].name == n)
    }

    /** `register`: a new name is appended; a taken name fails and changes nothing. */
    function Register(b: LayoutBlueprint): (res: (Outcome<LayoutError>, LayoutTable))
      ensures Valid() ==> res.1.Valid()
      ensures res.0.Fail? <==> b.name in byName
      ensures res.0.Fail? ==> res.0.error == DuplicateLayout(b.name) && res.1 == this
      ensures res.0.Pass? ==> res.1.order == order + [b.name] && res.1.byName == byName[b.name := b]
    {
      if b.name in byName then (Fail(DuplicateLayout(b.name)), this)
      else (Pass, LayoutTable(byName[b.name := b], order + [b.name]))
    }

    /** `get`: the blueprint stored under `name`, or an error listing every registered name. */
    function Get(name: string): (r: Result<LayoutBlueprint, LayoutError>)
      requires Valid()
      ensures r.Success? <==> Exists(name)
      ensures r.Success? ==> r.value.name == name && r.value == byName[name]
      ensures r.Failure? ==> r.error == UnknownLayout(name, ListAll())
    {
      if name in byName then Success(byName[name]) else Failure(UnknownLayout(name, order))
    }

    /** `exists`: whether `name` is currently registered. */
    function Exists(name: string): (b: bool)
      requires Valid()
      ensures b <==> name in ListAll()
    {
      name in byName
    }

    /** `list_all`: every registered name exactly once, in registration order. */
    function ListAll(): (names: seq<string>)
      requires Valid()
      ensures Distinct(names)
      ensures forall n :: n in names <==> n in byName
    {
      order
    }

    /** `unregister`: an absent name fails; a present one is removed and nothing else changes. */
    function Unregister(name: string): (r: Result<LayoutTable, LayoutError>)
      requires Valid()
      ensures r.Failure? <==> !Exists(name)
      ensures r.Failure? ==> r.error == NotRegistered(name)
      ensures r.Success? ==> r.value.Valid() && !r.value.Exists(name)
      ensures r.Success? ==> r.value.order == Without(order, name)
      ensures r.Success? ==> forall m | m != name :: (m in r.value.byName <==> m in byName)
      ensures r.Success? ==> forall m | m != name && m in byName :: r.value.byName[m] == byName[m]
    {
      if name !in byName then Failure(NotRegistered(name))
      else Success(LayoutTable(byName - {name}, Without(order, name)))
    }
  }

  const EmptyTable: LayoutTable := LayoutTable(map[], [])

  /** `clear` leaves a valid table with nothing registered. */
  lemma EmptyTableIsEmpty(name: string)
    ensures EmptyTable.Valid() && EmptyTable.ListAll() == [] && !EmptyTable.Exists(name)
  {
  }

  /** Round trip: a blueprint that registers is what `get` then returns for its name. */
  lemma RegisterThenGet(t: LayoutTable, b: LayoutBlueprint)
    requires t.Valid() && b.name !in t.byName
    ensures t.Register(b).0 == Pass
    ensures t.Register(b).1.Get(b.name) == Success(b)
    ensures t.Register(b).1.ListAll() == t.ListAll() + [b.name]
  {
  }

  /**
   * `exists(n)` is true exactly when `n` was registered and not removed since:
   * registering makes a name exist, unregistering makes it absent, and neither
   * touches any other name.
   */
  lemma {:induction false} ExistsTracksHistory(t: LayoutTable, b: LayoutBlueprint, other: string)
    requires t.Valid() && other != b.name
    ensures t.Register(b).1.Exists(b.name)
    ensures t.Register(b).1.Exists(other) == t.Exists(other)
    ensures t.Exists(b.name) ==> t.Unregister(b.name).Success? && !t.Unregister(b.name).value.Exists(b.name)
    ensures t.Exists(b.name) ==> t.Unregister(b.name).value.Exists(other) == t.Exists(other)
  {
  }

  /** The registry object; `table` is its `_layouts` dictionary, reassigned by every change. */
  class LayoutRegistry {
    var table: LayoutTable

    ghost predicate Valid()
      reads this
    {
      table.Valid()
    }

    constructor ()
      ensures Valid() && table == EmptyTable
    {
      table := EmptyTable;
    }

    method Register(b: LayoutBlueprint) returns (r: Outcome<LayoutError>)
      requires Valid()
      modifies this
      ensures Valid()
      ensures (r, table) == old(table).Register(b)
    {
      if b.name in table.byName {
        r := Fail(DuplicateLayout(b.name));
      } else {
        table := LayoutTable(table.byName[b.name := b], table.order + [b.name]);
        r := Pass;
      }
    }

    function Get(name: string): (r: Result<LayoutBlueprint, LayoutError>)
      reads this
      requires Valid()
      ensures r.Success? <==> name in ListAll()
      ensures r.Success? ==> r.value.name == name && r.value == table.byName[name]
      ensures r.Failure? ==> r.error == UnknownLayout(name, ListAll())
    {
      table.Get(name)
    }

    function Exists(name: string): (b: bool)
      reads this
      requires Valid()
      ensures b <==> name in ListAll()
    {
      table.Exists(name)
    }

    function ListAll(): (names: seq<string>)
      reads this
      requires Valid()
      ensures Distinct(names)
      ensures forall n :: n in names <==> n in table.byName
      ensures names == table.order
    {
      table.ListAll()
    }

    method Unregister(name: string) returns (r: Outcome<LayoutError>)
      requires Valid()
      modifies this
      ensures Valid()
      ensures r.Fail? <==> name !in old(table).byName
      ensures r.Fail? ==> r.error == NotRegistered(name) && table == old(table)
      ensures r.Pass? ==> table == old(table).Unregister(name).value
    {
      var u := table.Unregister(name);
      if u.Failure? {
        r := Fail(u.error);
      } else {
        table := u.value;
        r := Pass;
      }
    }

    method Clear()
      requires Valid()
      modifies this
      ensures Valid() && table == EmptyTable
    {
      table := EmptyTable;
    }
  }
}
