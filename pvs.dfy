/**
 * The PVS assembly-tree flattener: a catalog of components addressed by
 * index is walked depth-first in pre-order from a root component, and one
 * `SceneItem` is pushed for every composite and every leaf reached through
 * instances that are not hidden. Each item carries its slash-separated path,
 * the path of its parent, its depth, its geometry source (leaves only) and
 * its accumulated placement (leaves only, and only when it is not exactly
 * the identity).
 *
 * The functions below say what the walk produces; the methods at the end do
 * it step by step, pushing into a caller-owned list, and are proved to
 * produce exactly that.
 */
module Pvs {
  import opened Wrappers
  import opened Strings
  import Core

  const DEFAULT_ORIENTATION: string := "1,0,0,0,1,0,0,0,1"
  const DEFAULT_SUPPLIED_REVISION_ID: string := "1"
  const DEFAULT_TRANSLATION: string := "0,0,0"
  const PATH_ID_SEPARATOR: char := '/'
  /** Translations are scaled by this factor when a placement is built. */
  const TRANSLATION_SCALE: real := 1000.0

  datatype Source = Source(fileName: string, suppliedPartId: string, suppliedRevisionId: string)

  /** One output record. The reserved material slot is always absent and is not modelled. */
  datatype SceneItem = SceneItem(
    depth: nat,
    parentId: Option<string>,
    source: Option<Source>,
    suppliedId: string,
    transform: Option<Core.Transform>)

  datatype ShapeSource = ShapeSource(fileName: string)

  /**
   * An edge from a composite to the component at `index` (a decimal string),
   * with its own placement strings and visibility flags.
   */
  datatype ComponentInstance = ComponentInstance(
    hideChild: Option<bool>,
    hideSelf: Option<bool>,
    id: string,
    index: string,
    orientation: Option<string>,
    translation: Option<string>)

  /** Composite when it has instances, leaf when it has a shape source, inert otherwise. */
  datatype Component = Component(
    instances: seq<ComponentInstance>,
    name: string,
    shapeSource: Option<ShapeSource>)

  /**
   * Why a walk stops. `Helper` wraps a failure of the core helpers. Some of
   * these are `Err` values the Rust code returns with `?`; the others abort
   * the process (a panic, or a stack overflow that `OutOfFuel` stands for).
   */
  datatype Error =
    | Helper(cause: Core.Error)
    | IndexFormat(text: string)
    | IndexOutOfRange(index: nat, length: nat)
    | EmptyCatalog
    | OutOfFuel
  {
    predicate Aborts() {
      (Helper? && cause.IsPanic()) || IndexOutOfRange? || EmptyCatalog? || OutOfFuel?
    }
  }

  // ---------------------------------------------------------------------
  // SceneItem::new

  /** The identifier of the item at `pathId`: the path itself, or `/` for the root. */
  function SuppliedIdOf(pathId: string): string {
    if pathId == Core.EMPTY_STR then [PATH_ID_SEPARATOR] else pathId
  }

  /**
   * Builds the record for the node at `pathId`: split the identifier on `/`,
   * drop the last piece and join the rest for the parent (`""` becomes `/`,
   * and `/` itself has no parent); the depth is the number of pieces of the
   * path minus one.
   */
  function NewSceneItem(
    pathId: string,
    partName: string,
    partRevision: string,
    filename: Option<string>,
    transform: Option<Core.Matrix4>): (item: SceneItem)
    ensures item.suppliedId == SuppliedIdOf(pathId)
    ensures item.source.Some? <==> filename.Some?
    ensures item.source.Some? ==> item.source.value == Source(filename.value, partName, partRevision)
    ensures item.transform.Some? <==> transform.Some? && !Core.Is4x4Identity(transform.value)
    ensures item.transform.Some? ==> Core.TransformMatrix(item.transform.value) == transform.value
  {
    var suppliedId := SuppliedIdOf(pathId);
    var suppliedIdParts := Split(suppliedId, PATH_ID_SEPARATOR);
    var parentParts := suppliedIdParts[..|suppliedIdParts| - 1];
    var parentId := if suppliedId == [PATH_ID_SEPARATOR] then None else Some(Join(parentParts, PATH_ID_SEPARATOR));
    var pathParts := Split(pathId, PATH_ID_SEPARATOR);
    SceneItem(
      depth := |pathParts| - 1,
      parentId := match parentId
        case None => None
        case Some(p) => Some(if p == Core.EMPTY_STR then [PATH_ID_SEPARATOR] else p),
      source := match filename
        case None => None
        case Some(f) => Some(Source(f, partName, partRevision)),
      suppliedId := suppliedId,
      transform := match transform
        case Some(t) => if !Core.Is4x4Identity(t) then Some(Core.ToTransform(t)) else None
        case None => None)
  }

  // ---------------------------------------------------------------------
  // to_4x4 and the placement of one instance

  /**
   * The placement matrix of an instance: the row-major 3x3 orientation is
   * placed transposed, the scaled translation fills column 3 of rows 0-2,
   * and row 3 is `[0, 0, 0, 1]`.
   */
  function ToFourByFour(orientation: seq<real>, translation: seq<real>, scale: real): (m: Core.Matrix4)
    requires |orientation| == 9 && |translation| == 3
    ensures forall r, c :: 0 <= r < 3 && 0 <= c < 3 ==> m[c][r] == orientation[3 * r + c]
    ensures forall i :: 0 <= i < 3 ==> m[i][3] == translation[i] * scale
    ensures Core.IsAffine(m)
  {
    var m := [
      [orientation[0], orientation[3], orientation[6], translation[0] * scale],
      [orientation[1], orientation[4], orientation[7], translation[1] * scale],
      [orientation[2], orientation[5], orientation[8], translation[2] * scale],
      [0.0, 0.0, 0.0, 1.0]
    ];
    assert forall c :: 0 <= c < 3 ==>
      m[c][0] == orientation[c] && m[c][1] == orientation[3 + c] && m[c][2] == orientation[6 + c];
    m
  }

  /**
   * The local placement of an instance, read from its orientation and
   * translation strings (the defaults when absent). The orientation is read
   * and length-checked before the translation is.
   */
  function LocalTransform(inst: ComponentInstance, parse: string -> Option<real>): (r: Result<Core.Matrix4, Error>)
    ensures r.Success? <==>
      var o := Core.FloatArr(inst.orientation.GetOr(DEFAULT_ORIENTATION), parse);
      var t := Core.FloatArr(inst.translation.GetOr(DEFAULT_TRANSLATION), parse);
      o.Success? && |o.value| == 9 && t.Success? && |t.value| == 3
    ensures r.Success? ==> Core.IsAffine(r.value)
    ensures r.Failure? ==>
      var o := Core.FloatArr(inst.orientation.GetOr(DEFAULT_ORIENTATION), parse);
      var t := Core.FloatArr(inst.translation.GetOr(DEFAULT_TRANSLATION), parse);
      (r.error.Aborts() <==> o.Success? && (|o.value| != 9 || (t.Success? && |t.value| != 3)))
  {
    match Core.FloatArr(inst.orientation.GetOr(DEFAULT_ORIENTATION), parse)
    case Failure(e) => Failure(Helper(e))
    case Success(os) =>
      match Core.ToArr9(os)
      case Failure(e) => Failure(Helper(e))
      case Success(o) =>
        match Core.FloatArr(inst.translation.GetOr(DEFAULT_TRANSLATION), parse)
        case Failure(e) => Failure(Helper(e))
        case Success(ts) =>
          match Core.ToArr3(ts)
          case Failure(e) => Failure(Helper(e))
          case Success(t) => Success(ToFourByFour(o, t, TRANSLATION_SCALE))
  }

  /** The placement handed to a child: the parent's pre-multiplies the local one. */
  function Compose(parent: Option<Core.Matrix4>, local: Core.Matrix4): Core.Matrix4 {
    match parent
    case Some(t) => Core.Product(t, local)
    case None => local
  }

  predicate Hidden(inst: ComponentInstance) {
    inst.hideSelf.GetOr(false) || inst.hideChild.GetOr(false)
  }

  // ---------------------------------------------------------------------
  // add_items, as a function

  /**
   * What a walk pushes: the items, in order, and the error that stopped it
   * (if any). The items pushed before an error stay pushed.
   */
  datatype Emission = Emission(items: seq<SceneItem>, err: Option<Error>)

  /**
   * The walk from `component` at `pathId` with accumulated placement
   * `transform`. `fuel` bounds the nesting depth: the Rust recursion has no
   * bound and overflows the stack on a cyclic catalog.
   */
  function FlattenNode(
    catalog: seq<Component>,
    component: Component,
    pathId: string,
    transform: Option<Core.Matrix4>,
    parse: string -> Option<real>,
    fuel: nat): Emission
    decreases fuel, 0
  {
    if fuel == 0 then Emission([], Some(OutOfFuel))
    else if |component.instances| > 0 then
      var head := NewSceneItem(pathId, component.name, DEFAULT_SUPPLIED_REVISION_ID, None, None);
      var rest := FlattenInstances(catalog, component.instances, pathId, transform, parse, fuel - 1);
      Emission([head] + rest.items, rest.err)
    else
      match component.shapeSource
      case Some(ss) =>
        Emission([NewSceneItem(pathId, component.name, DEFAULT_SUPPLIED_REVISION_ID, Some(ss.fileName), transform)], None)
      case None => Emission([], None)
  }

  /** The instances of a composite, in order, stopping at the first error. */
  function FlattenInstances(
    catalog: seq<Component>,
    instances: seq<ComponentInstance>,
    pathId: string,
    transform: Option<Core.Matrix4>,
    parse: string -> Option<real>,
    fuel: nat): Emission
    decreases fuel, |instances| + 2
  {
    if instances == [] then Emission([], None)
    else
      var done := FlattenInstances(catalog, instances[..|instances| - 1], pathId, transform, parse, fuel);
      if done.err.Some? then done
      else
        var last := FlattenInstance(catalog, instances[|instances| - 1], pathId, transform, parse, fuel);
        Emission(done.items + last.items, last.err)
  }

  /**
   * One instance: skipped when hidden; otherwise its placement is built, its
   * index is read and looked up, and the child is walked at `pathId/id`.
   */
  function FlattenInstance(
    catalog: seq<Component>,
    inst: ComponentInstance,
    pathId: string,
    transform: Option<Core.Matrix4>,
    parse: string -> Option<real>,
    fuel: nat): Emission
    decreases fuel, 1
  {
    if Hidden(inst) then Emission([], None)
    else
      match LocalTransform(inst, parse)
      case Failure(e) => Emission([], Some(e))
      case Success(local) =>
        match ParseUsize(inst.index)
        case None => Emission([], Some(IndexFormat(inst.index)))
        case Some(idx) =>
          if idx >= |catalog| then Emission([], Some(IndexOutOfRange(idx, |catalog|)))
          else FlattenNode(catalog, catalog[idx], pathId + [PATH_ID_SEPARATOR] + inst.id,
                           Some(Compose(transform, local)), parse, fuel)
  }

  /** What `create_items` returns: all items, or the error, never a partial list. */
  function Flatten(catalog: seq<Component>, rootIdx: nat, parse: string -> Option<real>): Result<seq<SceneItem>, Error> {
    if rootIdx >= |catalog| then Failure(IndexOutOfRange(rootIdx, |catalog|))
    else
      var e := FlattenNode(catalog, catalog[rootIdx], Core.EMPTY_STR, None, parse, |catalog|);
      match e.err
      case Some(err) => Failure(err)
      case None => Success(e.items)
  }

  /** What `run` returns once the document is read: the walk from the last component. */
  function FlattenCatalog(catalog: seq<Component>, parse: string -> Option<real>): Result<seq<SceneItem>, Error> {
    if |catalog| == 0 then Failure(EmptyCatalog) else Flatten(catalog, |catalog| - 1, parse)
  }

  /** Once the instances up to `k` have stopped with an error, the rest change nothing. */
  lemma {:induction false} FlattenInstancesStops(
    catalog: seq<Component>,
    instances: seq<ComponentInstance>,
    k: nat,
    pathId: string,
    transform: Option<Core.Matrix4>,
    parse: string -> Option<real>,
    fuel: nat)
    requires k <= |instances|
    requires FlattenInstances(catalog, instances[..k], pathId, transform, parse, fuel).err.Some?
    ensures FlattenInstances(catalog, instances, pathId, transform, parse, fuel)
         == FlattenInstances(catalog, instances[..k], pathId, transform, parse, fuel)
  {
    if k < |instances| {
      var init := instances[..|instances| - 1];
      assert init[..k] == instances[..k];
      FlattenInstancesStops(catalog, init, k, pathId, transform, parse, fuel);
    } else {
      assert instances[..k] == instances;
    }
  }

  /** The instances up to `k + 1` are those up to `k` followed by instance `k`. */
  lemma FlattenInstancesStep(
    catalog: seq<Component>,
    instances: seq<ComponentInstance>,
    k: nat,
    pathId: string,
    transform: Option<Core.Matrix4>,
    parse: string -> Option<real>,
    fuel: nat)
    requires k < |instances|
    requires FlattenInstances(catalog, instances[..k], pathId, transform, parse, fuel).err.None?
    ensures var done := FlattenInstances(catalog, instances[..k], pathId, transform, parse, fuel);
            var step := FlattenInstance(catalog, instances[k], pathId, transform, parse, fuel);
            FlattenInstances(catalog, instances[..k + 1], pathId, transform, parse, fuel)
              == Emission(done.items + step.items, step.err)
  {
    assert instances[..k + 1][..k] == instances[..k];
  }

  // ---------------------------------------------------------------------
  // add_items, create_items and run, step by step

  lemma AppendAssoc<T>(a: seq<T>, b: seq<T>, c: seq<T>)
    ensures (a + b) + c == a + (b + c)
  {
  }

  /** The caller-owned `Vec<SceneItem>` the walk pushes into. */
  class SceneItemList {
    var items: seq<SceneItem>

    constructor ()
      ensures items == []
    {
      items := [];
    }

    method Push(item: SceneItem)
      modifies this
      ensures items == old(items) + [item]
    {
      items := items + [item];
    }
  }

  /** The placement of one instance, read as the loop of `add_items` does. */
  method InstanceTransform(inst: ComponentInstance, parse: string -> Option<real>) returns (r: Result<Core.Matrix4, Error>)
    ensures r == LocalTransform(inst, parse)
  {
    var os := Core.ToFloatArr(inst.orientation.GetOr(DEFAULT_ORIENTATION), parse);
    if os.Failure? {
      return Failure(Helper(os.error));
    }
    var o := Core.ToArr9(os.value);
    if o.Failure? {
      return Failure(Helper(o.error));
    }
    var ts := Core.ToFloatArr(inst.translation.GetOr(DEFAULT_TRANSLATION), parse);
    if ts.Failure? {
      return Failure(Helper(ts.error));
    }
    var t := Core.ToArr3(ts.value);
    if t.Failure? {
      return Failure(Helper(t.error));
    }
    return Success(ToFourByFour(o.value, t.value, TRANSLATION_SCALE));
  }

  /**
   * Pushes the items of the walk from `component` into `out`; returns the
   * error that stopped it, if any, leaving what was pushed before it.
   */
  method AddItems(
    catalog: seq<Component>,
    component: Component,
    pathId: string,
    transform: Option<Core.Matrix4>,
    parse: string -> Option<real>,
    fuel: nat,
    out: SceneItemList) returns (err: Option<Error>)
    modifies out
    decreases fuel, 1
    ensures out.items == old(out.items) + FlattenNode(catalog, component, pathId, transform, parse, fuel).items
    ensures err == FlattenNode(catalog, component, pathId, transform, parse, fuel).err
  {
    if fuel == 0 {
      return Some(OutOfFuel);
    }
    if |component.instances| > 0 {
      err := AddComposite(catalog, component, pathId, transform, parse, fuel, out);
      AppendAssoc(old(out.items), [NewSceneItem(pathId, component.name, DEFAULT_SUPPLIED_REVISION_ID, None, None)],
                  FlattenInstances(catalog, component.instances, pathId, transform, parse, fuel - 1).items);
    } else {
      match component.shapeSource {
        case Some(ss) =>
          out.Push(NewSceneItem(pathId, component.name, DEFAULT_SUPPLIED_REVISION_ID, Some(ss.fileName), transform));
          return None;
        case None =>
          return None;
      }
    }
  }

  /** A composite: its own record first, then the walks of its instances. */
  method AddComposite(
    catalog: seq<Component>,
    component: Component,
    pathId: string,
    transform: Option<Core.Matrix4>,
    parse: string -> Option<real>,
    fuel: nat,
    out: SceneItemList) returns (err: Option<Error>)
    requires fuel > 0 && |component.instances| > 0
    modifies out
    decreases fuel, 0
    ensures var rest := FlattenInstances(catalog, component.instances, pathId, transform, parse, fuel - 1);
            && out.items == old(out.items) + [NewSceneItem(pathId, component.name, DEFAULT_SUPPLIED_REVISION_ID, None, None)] + rest.items
            && err == rest.err
  {
    var head := NewSceneItem(pathId, component.name, DEFAULT_SUPPLIED_REVISION_ID, None, None);
    out.Push(head);
    err := AddInstances(catalog, component.instances, pathId, transform, parse, fuel - 1, out);
  }

  /** The loop of `add_items` over the instances of a composite. */
  method AddInstances(
    catalog: seq<Component>,
    instances: seq<ComponentInstance>,
    pathId: string,
    transform: Option<Core.Matrix4>,
    parse: string -> Option<real>,
    fuel: nat,
    out: SceneItemList) returns (err: Option<Error>)
    modifies out
    decreases fuel, 3
    ensures out.items == old(out.items) + FlattenInstances(catalog, instances, pathId, transform, parse, fuel).items
    ensures err == FlattenInstances(catalog, instances, pathId, transform, parse, fuel).err
  {
    ghost var base := out.items;
    for k := 0 to |instances|
      invariant FlattenInstances(catalog, instances[..k], pathId, transform, parse, fuel).err.None?
      invariant out.items == base + FlattenInstances(catalog, instances[..k], pathId, transform, parse, fuel).items
    {
      ghost var done := FlattenInstances(catalog, instances[..k], pathId, transform, parse, fuel);
      ghost var step := FlattenInstance(catalog, instances[k], pathId, transform, parse, fuel);
      FlattenInstancesStep(catalog, instances, k, pathId, transform, parse, fuel);
      var e := AddInstance(catalog, instances[k], pathId, transform, parse, fuel, out);
      AppendAssoc(base, done.items, step.items);
      if e.Some? {
        FlattenInstancesStops(catalog, instances, k + 1, pathId, transform, parse, fuel);
        return e;
      }
    }
    assert instances[..|instances|] == instances;
    return None;
  }

  /** One pass of the loop of `add_items`: skip, fail, or walk the child. */
  method AddInstance(
    catalog: seq<Component>,
    inst: ComponentInstance,
    pathId: string,
    transform: Option<Core.Matrix4>,
    parse: string -> Option<real>,
    fuel: nat,
    out: SceneItemList) returns (err: Option<Error>)
    modifies out
    decreases fuel, 2
    ensures out.items == old(out.items) + FlattenInstance(catalog, inst, pathId, transform, parse, fuel).items
    ensures err == FlattenInstance(catalog, inst, pathId, transform, parse, fuel).err
  {
    if inst.hideSelf.GetOr(false) || inst.hideChild.GetOr(false) {
      return None;
    }
    var local := InstanceTransform(inst, parse);
    if local.Failure? {
      return Some(local.error);
    }
    var idx := ParseUsize(inst.index);
    if idx.None? {
      return Some(IndexFormat(inst.index));
    }
    if idx.value >= |catalog| {
      return Some(IndexOutOfRange(idx.value, |catalog|));
    }
    var childTransform := local.value;
    if transform.Some? {
      childTransform := Core.Multiply4x4(transform.value, local.value);
    }
    err := AddItems(catalog, catalog[idx.value], pathId + [PATH_ID_SEPARATOR] + inst.id,
                    Some(childTransform), parse, fuel, out);
  }

  /** Walks the catalog from `rootIdx` into a fresh list; all items or the error. */
  method CreateItems(catalog: seq<Component>, rootIdx: nat, parse: string -> Option<real>)
    returns (r: Result<seq<SceneItem>, Error>)
    ensures r == Flatten(catalog, rootIdx, parse)
  {
    var out := new SceneItemList();
    if rootIdx >= |catalog| {
      return Failure(IndexOutOfRange(rootIdx, |catalog|));
    }
    var err := AddItems(catalog, catalog[rootIdx], Core.EMPTY_STR, None, parse, |catalog|, out);
    ghost var walk := FlattenNode(catalog, catalog[rootIdx], Core.EMPTY_STR, None, parse, |catalog|);
    if err.Some? {
      return Failure(err.value);
    }
    assert out.items == walk.items;
    return Success(out.items);
  }

  /** `run` after the document is read: the last component is the root. */
  method Run(catalog: seq<Component>, parse: string -> Option<real>) returns (r: Result<seq<SceneItem>, Error>)
    ensures r == FlattenCatalog(catalog, parse)
  {
    if |catalog| == 0 {
      return Failure(EmptyCatalog);
    }
    r := CreateItems(catalog, |catalog| - 1, parse);
  }
}
