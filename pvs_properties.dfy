/**
 * What the flattener promises, proved about the functions of `Pvs`: the
 * shape of one record (depth, parent, root), the default placement, the
 * three kinds of node, hidden instances, the placements that reach the
 * output, the pre-order of parents before children, and termination of the
 * walk on a catalog whose instances only point backwards.
 */
module PvsProperties {
  import opened Wrappers
  import opened Strings
  import Core
  import opened Pvs

  // ---------------------------------------------------------------------
  // One record

  /**
   * The parent identifier of the node at `pathId`, defined directly: what
   * comes before the last `/` of its identifier, `/` when that is empty,
   * and nothing for the root `/` itself.
   */
  function ParentIdOf(pathId: string): Option<string> {
    var id := SuppliedIdOf(pathId);
    if id == [PATH_ID_SEPARATOR] then None
    else
      var p := BeforeLast(id, PATH_ID_SEPARATOR);
      Some(if p == [] then [PATH_ID_SEPARATOR] else p)
  }

  /** The depth of a record is the number of separators in its path. */
  lemma SceneItemDepth(
    pathId: string, partName: string, partRevision: string,
    filename: Option<string>, transform: Option<Core.Matrix4>)
    ensures NewSceneItem(pathId, partName, partRevision, filename, transform).depth
         == Occurrences(pathId, PATH_ID_SEPARATOR)
  {
    SplitLength(pathId, PATH_ID_SEPARATOR);
  }

  /** Split, drop the last piece and join is the same as cutting at the last separator. */
  lemma SceneItemParent(
    pathId: string, partName: string, partRevision: string,
    filename: Option<string>, transform: Option<Core.Matrix4>)
    ensures NewSceneItem(pathId, partName, partRevision, filename, transform).parentId == ParentIdOf(pathId)
  {
    JoinDropLast(SuppliedIdOf(pathId), PATH_ID_SEPARATOR);
  }

  /**
   * The parent of `path/id`, for an `id` without separators, is the node at
   * `path`: the path `/` (empty `path` and `id`) is the only exception.
   */
  lemma ChildParent(path: string, id: string)
    requires PATH_ID_SEPARATOR !in id
    ensures ParentIdOf(path + [PATH_ID_SEPARATOR] + id)
         == if path == [] && id == [] then None else Some(SuppliedIdOf(path))
  {
    BeforeLastAppend(path, id, PATH_ID_SEPARATOR);
  }

  /**
   * A child record sits one level below its parent's and names the parent's
   * identifier as its parent.
   */
  lemma ChildItem(
    path: string, id: string, partName: string, partRevision: string,
    filename: Option<string>, transform: Option<Core.Matrix4>)
    requires PATH_ID_SEPARATOR !in id
    ensures var parent := NewSceneItem(path, partName, partRevision, filename, transform);
            var child := NewSceneItem(path + [PATH_ID_SEPARATOR] + id, partName, partRevision, filename, transform);
            && child.depth == parent.depth + 1
            && (child.parentId.Some? <==> path != [] || id != [])
            && (child.parentId.Some? ==> child.parentId.value == parent.suppliedId)
  {
    var childPath := path + [PATH_ID_SEPARATOR] + id;
    SceneItemDepth(path, partName, partRevision, filename, transform);
    SceneItemDepth(childPath, partName, partRevision, filename, transform);
    OccurrencesAppend(path, id, PATH_ID_SEPARATOR);
    SceneItemParent(childPath, partName, partRevision, filename, transform);
    ChildParent(path, id);
  }

  // ---------------------------------------------------------------------
  // The default placement

  /** The default orientation string holds the nine entries of the 3x3 identity. */
  lemma DefaultOrientationTokens()
    ensures Split(DEFAULT_ORIENTATION, ',') == ["1", "0", "0", "0", "1", "0", "0", "0", "1"]
  {
    var tokens: seq<string> := ["1", "0", "0", "0", "1", "0", "0", "0", "1"];
    forall n | 1 <= n < |tokens|
      ensures Join(tokens[..n + 1], ',') == Join(tokens[..n], ',') + [','] + tokens[n]
    {
      assert tokens[..n + 1] == tokens[..n] + [tokens[n]];
      JoinSnoc(tokens[..n], tokens[n], ',');
    }
    assert tokens[..1] == ["1"];
    assert Join(tokens[..2], ',') == "1,0";
    assert Join(tokens[..3], ',') == "1,0,0";
    assert Join(tokens[..4], ',') == "1,0,0,0";
    assert Join(tokens[..5], ',') == "1,0,0,0,1";
    assert Join(tokens[..6], ',') == "1,0,0,0,1,0";
    assert Join(tokens[..7], ',') == "1,0,0,0,1,0,0";
    assert Join(tokens[..8], ',') == "1,0,0,0,1,0,0,0";
    assert Join(tokens[..9], ',') == DEFAULT_ORIENTATION;
    assert tokens[..9] == tokens;
    SplitJoin(tokens, ',');
  }

  /** The default translation string holds three zeros. */
  lemma DefaultTranslationTokens()
    ensures Split(DEFAULT_TRANSLATION, ',') == ["0", "0", "0"]
  {
    var tokens: seq<string> := ["0", "0", "0"];
    JoinSnoc(tokens[..1], tokens[1], ',');
    JoinSnoc(tokens[..2], tokens[2], ',');
    assert tokens[..1] == ["0"] && tokens[..1] + [tokens[1]] == tokens[..2] && tokens[..2] + [tokens[2]] == tokens;
    assert Join(tokens[..2], ',') == "0,0";
    assert Join(tokens, ',') == DEFAULT_TRANSLATION;
    SplitJoin(tokens, ',');
  }

  /** Read with a parser that knows "0" and "1", the default orientation is the 3x3 identity. */
  lemma DefaultOrientationReads(parse: string -> Option<real>)
    requires parse("0") == Some(0.0) && parse("1") == Some(1.0)
    ensures Core.FloatArr(DEFAULT_ORIENTATION, parse) == Success([1.0, 0.0, 0.0, 0.0, 1.0, 0.0, 0.0, 0.0, 1.0])
  {
    DefaultOrientationTokens();
    var r := Core.FloatArr(DEFAULT_ORIENTATION, parse);
    assert r.value == [1.0, 0.0, 0.0, 0.0, 1.0, 0.0, 0.0, 0.0, 1.0];
  }

  /** Read with a parser that knows "0", the default translation is zero. */
  lemma DefaultTranslationReads(parse: string -> Option<real>)
    requires parse("0") == Some(0.0)
    ensures Core.FloatArr(DEFAULT_TRANSLATION, parse) == Success([0.0, 0.0, 0.0])
  {
    DefaultTranslationTokens();
    var r := Core.FloatArr(DEFAULT_TRANSLATION, parse);
    assert r.value == [0.0, 0.0, 0.0];
  }

  /**
   * An instance without orientation and translation is placed by the
   * identity, given a number parser that reads "0" and "1" as such.
   */
  lemma DefaultPlacement(inst: ComponentInstance, parse: string -> Option<real>)
    requires inst.orientation.None? && inst.translation.None?
    requires parse("0") == Some(0.0) && parse("1") == Some(1.0)
    ensures LocalTransform(inst, parse) == Success(Core.IDENTITY)
  {
    DefaultOrientationReads(parse);
    DefaultTranslationReads(parse);
  }

  // ---------------------------------------------------------------------
  // The three kinds of node

  /**
   * A composite pushes its own record first (no source, no placement); a
   * leaf pushes exactly one record carrying its file and placement; an
   * inert component pushes nothing.
   */
  lemma NodeShape(
    catalog: seq<Component>, component: Component, pathId: string,
    transform: Option<Core.Matrix4>, parse: string -> Option<real>, fuel: nat)
    requires fuel > 0
    ensures var e := FlattenNode(catalog, component, pathId, transform, parse, fuel);
            |component.instances| > 0 ==>
              && |e.items| >= 1
              && e.items[0].suppliedId == SuppliedIdOf(pathId)
              && e.items[0].parentId == ParentIdOf(pathId)
              && e.items[0].depth == Occurrences(pathId, PATH_ID_SEPARATOR)
              && e.items[0].source.None?
              && e.items[0].transform.None?
    ensures var e := FlattenNode(catalog, component, pathId, transform, parse, fuel);
            |component.instances| == 0 && component.shapeSource.Some? ==>
              && e.err.None?
              && |e.items| == 1
              && e.items[0].suppliedId == SuppliedIdOf(pathId)
              && e.items[0].parentId == ParentIdOf(pathId)
              && e.items[0].depth == Occurrences(pathId, PATH_ID_SEPARATOR)
              && e.items[0].source == Some(Source(component.shapeSource.value.fileName, component.name, DEFAULT_SUPPLIED_REVISION_ID))
              && (e.items[0].transform.Some? <==> transform.Some? && !Core.Is4x4Identity(transform.value))
              && (e.items[0].transform.Some? ==> Core.TransformMatrix(e.items[0].transform.value) == transform.value)
    ensures var e := FlattenNode(catalog, component, pathId, transform, parse, fuel);
            |component.instances| == 0 && component.shapeSource.None? ==> e == Emission([], None)
  {
    if |component.instances| > 0 {
      SceneItemParent(pathId, component.name, DEFAULT_SUPPLIED_REVISION_ID, None, None);
      SceneItemDepth(pathId, component.name, DEFAULT_SUPPLIED_REVISION_ID, None, None);
    } else if component.shapeSource.Some? {
      var f := Some(component.shapeSource.value.fileName);
      SceneItemParent(pathId, component.name, DEFAULT_SUPPLIED_REVISION_ID, f, transform);
      SceneItemDepth(pathId, component.name, DEFAULT_SUPPLIED_REVISION_ID, f, transform);
    }
  }

  /**
   * A visible instance whose placement reads and whose index is in range
   * contributes exactly the walk of the indexed component at `pathId/id`,
   * placed by the parent's placement times its own.
   */
  lemma InstanceDescends(
    catalog: seq<Component>, inst: ComponentInstance, pathId: string,
    transform: Option<Core.Matrix4>, parse: string -> Option<real>, fuel: nat,
    local: Core.Matrix4, idx: nat)
    requires !Hidden(inst)
    requires LocalTransform(inst, parse) == Success(local)
    requires ParseUsize(inst.index) == Some(idx) && idx < |catalog|
    ensures FlattenInstance(catalog, inst, pathId, transform, parse, fuel)
         == FlattenNode(catalog, catalog[idx], pathId + [PATH_ID_SEPARATOR] + inst.id,
                        Some(Compose(transform, local)), parse, fuel)
  {
  }

  /**
   * How a visible instance fails: a placement that does not read stops the
   * walk with that error; an index that does not read is an `Err` the caller
   * propagates; an index past the end of the catalog aborts. None of them
   * pushes anything.
   */
  lemma InstanceFails(
    catalog: seq<Component>, inst: ComponentInstance, pathId: string,
    transform: Option<Core.Matrix4>, parse: string -> Option<real>, fuel: nat)
    requires !Hidden(inst)
    ensures var e := FlattenInstance(catalog, inst, pathId, transform, parse, fuel);
            LocalTransform(inst, parse).Failure? ==> e == Emission([], Some(LocalTransform(inst, parse).error))
    ensures var e := FlattenInstance(catalog, inst, pathId, transform, parse, fuel);
            LocalTransform(inst, parse).Success? && ParseUsize(inst.index).None? ==>
              e == Emission([], Some(IndexFormat(inst.index))) && !e.err.value.Aborts()
    ensures var e := FlattenInstance(catalog, inst, pathId, transform, parse, fuel);
            LocalTransform(inst, parse).Success? && ParseUsize(inst.index).Some? && ParseUsize(inst.index).value >= |catalog| ==>
              e == Emission([], Some(IndexOutOfRange(ParseUsize(inst.index).value, |catalog|))) && e.err.value.Aborts()
  {
  }

  /** Once both strings read with the right lengths, the placement is `to_4x4` of them. */
  lemma PlacementReads(inst: ComponentInstance, parse: string -> Option<real>, o: seq<real>, t: seq<real>)
    requires Core.FloatArr(inst.orientation.GetOr(DEFAULT_ORIENTATION), parse) == Success(o) && |o| == 9
    requires Core.FloatArr(inst.translation.GetOr(DEFAULT_TRANSLATION), parse) == Success(t) && |t| == 3
    ensures LocalTransform(inst, parse) == Success(ToFourByFour(o, t, TRANSLATION_SCALE))
  {
  }

  /** A successful walk from the root starts with the root record `/`. */
  lemma FlattenRoot(catalog: seq<Component>, rootIdx: nat, parse: string -> Option<real>)
    requires Flatten(catalog, rootIdx, parse).Success?
    requires Flatten(catalog, rootIdx, parse).value != []
    ensures var root := Flatten(catalog, rootIdx, parse).value[0];
            root.suppliedId == [PATH_ID_SEPARATOR] && root.parentId.None? && root.depth == 0
  {
    NodeShape(catalog, catalog[rootIdx], Core.EMPTY_STR, None, parse, |catalog|);
  }

  // ---------------------------------------------------------------------
  // Hidden instances

  /** The instances that are not hidden, in order. */
  function Visible(instances: seq<ComponentInstance>): (r: seq<ComponentInstance>)
    ensures forall x :: x in r <==> x in instances && !Hidden(x)
  {
    if instances == [] then []
    else
      var init := Visible(instances[..|instances| - 1]);
      var last := instances[|instances| - 1];
      assert instances == instances[..|instances| - 1] + [last];
      if Hidden(last) then init else init + [last]
  }

  /** Hidden instances contribute no record and no error: they are skipped. */
  lemma {:induction false} HiddenSkipped(
    catalog: seq<Component>, instances: seq<ComponentInstance>, pathId: string,
    transform: Option<Core.Matrix4>, parse: string -> Option<real>, fuel: nat)
    ensures FlattenInstances(catalog, instances, pathId, transform, parse, fuel)
         == FlattenInstances(catalog, Visible(instances), pathId, transform, parse, fuel)
  {
    if instances != [] {
      var init := instances[..|instances| - 1];
      var last := instances[|instances| - 1];
      HiddenSkipped(catalog, init, pathId, transform, parse, fuel);
      var done := FlattenInstances(catalog, init, pathId, transform, parse, fuel);
      if Hidden(last) {
        if done.err.None? {
          assert done.items + [] == done.items;
        }
      } else {
        var v := Visible(init) + [last];
        assert v[..|v| - 1] == Visible(init);
      }
    }
  }

  // ---------------------------------------------------------------------
  // Placements in the output

  /** Every placement a record carries has bottom row `(0, 0, 0, 1)`. */
  predicate AffineItems(items: seq<SceneItem>) {
    forall i :: 0 <= i < |items| && items[i].transform.Some? ==>
      items[i].transform.value.r3 == Core.Vector4f(0.0, 0.0, 0.0, 1.0)
  }

  predicate AffineOrNone(transform: Option<Core.Matrix4>) {
    transform.Some? ==> Core.IsAffine(transform.value)
  }

  lemma {:induction false} NodeAffine(
    catalog: seq<Component>, component: Component, pathId: string,
    transform: Option<Core.Matrix4>, parse: string -> Option<real>, fuel: nat)
    requires AffineOrNone(transform)
    ensures AffineItems(FlattenNode(catalog, component, pathId, transform, parse, fuel).items)
    decreases fuel, 0
  {
    if fuel > 0 {
      if |component.instances| > 0 {
        InstancesAffine(catalog, component.instances, pathId, transform, parse, fuel - 1);
      } else if component.shapeSource.Some? {
        var item := NewSceneItem(pathId, component.name, DEFAULT_SUPPLIED_REVISION_ID,
                                 Some(component.shapeSource.value.fileName), transform);
        if item.transform.Some? {
          assert Core.TransformMatrix(item.transform.value)[3] == [0.0, 0.0, 0.0, 1.0];
        }
      }
    }
  }

  lemma {:induction false} InstancesAffine(
    catalog: seq<Component>, instances: seq<ComponentInstance>, pathId: string,
    transform: Option<Core.Matrix4>, parse: string -> Option<real>, fuel: nat)
    requires AffineOrNone(transform)
    ensures AffineItems(FlattenInstances(catalog, instances, pathId, transform, parse, fuel).items)
    decreases fuel, |instances| + 2
  {
    if instances != [] {
      var init := instances[..|instances| - 1];
      InstancesAffine(catalog, init, pathId, transform, parse, fuel);
      InstanceAffine(catalog, instances[|instances| - 1], pathId, transform, parse, fuel);
    }
  }

  lemma {:induction false} InstanceAffine(
    catalog: seq<Component>, inst: ComponentInstance, pathId: string,
    transform: Option<Core.Matrix4>, parse: string -> Option<real>, fuel: nat)
    requires AffineOrNone(transform)
    ensures AffineItems(FlattenInstance(catalog, inst, pathId, transform, parse, fuel).items)
    decreases fuel, 1
  {
    if !Hidden(inst) && LocalTransform(inst, parse).Success? {
      var local := LocalTransform(inst, parse).value;
      var idx := ParseUsize(inst.index);
      if idx.Some? && idx.value < |catalog| {
        if transform.Some? {
          Core.ProductAffine(transform.value, local);
        }
        NodeAffine(catalog, catalog[idx.value], pathId + [PATH_ID_SEPARATOR] + inst.id,
                   Some(Compose(transform, local)), parse, fuel);
      }
    }
  }

  /** Every placement in the output of a walk from the root is affine. */
  lemma FlattenAffine(catalog: seq<Component>, rootIdx: nat, parse: string -> Option<real>)
    requires Flatten(catalog, rootIdx, parse).Success?
    ensures AffineItems(Flatten(catalog, rootIdx, parse).value)
  {
    NodeAffine(catalog, catalog[rootIdx], Core.EMPTY_STR, None, parse, |catalog|);
  }

  // ---------------------------------------------------------------------
  // Parents before children

  /**
   * Every record that names a parent either names `outer` or comes after a
   * record with that identifier.
   */
  predicate ParentsBefore(items: seq<SceneItem>, outer: Option<string>) {
    forall i :: 0 <= i < |items| && items[i].parentId.Some? ==>
      items[i].parentId == outer ||
      exists j :: 0 <= j < i && items[j].suppliedId == items[i].parentId.value
  }

  predicate IdsFree(instances: seq<ComponentInstance>) {
    forall k :: 0 <= k < |instances| ==> PATH_ID_SEPARATOR !in instances[k].id
  }

  /** No instance identifier in the catalog contains the path separator. */
  predicate CatalogIdsFree(catalog: seq<Component>) {
    forall i :: 0 <= i < |catalog| ==> IdsFree(catalog[i].instances)
  }

  lemma ParentsBeforeAppend(a: seq<SceneItem>, b: seq<SceneItem>, outer: Option<string>)
    requires ParentsBefore(a, outer) && ParentsBefore(b, outer)
    ensures ParentsBefore(a + b, outer)
  {
    var s := a + b;
    forall i | 0 <= i < |a| && s[i].parentId.Some? && s[i].parentId != outer
      ensures exists j :: 0 <= j < i && s[j].suppliedId == s[i].parentId.value
    {
      assert s[i] == a[i];
      var j :| 0 <= j < i && a[j].suppliedId == a[i].parentId.value;
      assert s[j] == a[j];
    }
    forall i | |a| <= i < |s| && s[i].parentId.Some? && s[i].parentId != outer
      ensures exists j :: 0 <= j < i && s[j].suppliedId == s[i].parentId.value
    {
      assert s[i] == b[i - |a|];
      var j :| 0 <= j < i - |a| && b[j].suppliedId == b[i - |a|].parentId.value;
      assert s[j + |a|] == b[j];
    }
  }

  /** Below a head record, children naming the head find it first. */
  lemma ParentsBeforeHead(head: SceneItem, rest: seq<SceneItem>, outer: Option<string>)
    requires head.parentId.Some? ==> head.parentId == outer
    requires ParentsBefore(rest, Some(head.suppliedId))
    ensures ParentsBefore([head] + rest, outer)
  {
    var s := [head] + rest;
    forall i | 1 <= i < |s| && s[i].parentId.Some? && s[i].parentId != outer
      ensures exists j :: 0 <= j < i && s[j].suppliedId == s[i].parentId.value
    {
      assert s[i] == rest[i - 1];
      if s[i].parentId != Some(head.suppliedId) {
        var j :| 0 <= j < i - 1 && rest[j].suppliedId == rest[i - 1].parentId.value;
        assert s[j + 1] == rest[j];
      } else {
        assert s[0] == head;
      }
    }
  }

  lemma {:induction false} NodeParents(
    catalog: seq<Component>, component: Component, pathId: string,
    transform: Option<Core.Matrix4>, parse: string -> Option<real>, fuel: nat)
    requires CatalogIdsFree(catalog) && IdsFree(component.instances)
    ensures ParentsBefore(FlattenNode(catalog, component, pathId, transform, parse, fuel).items, ParentIdOf(pathId))
    decreases fuel, 0
  {
    if fuel > 0 {
      NodeShape(catalog, component, pathId, transform, parse, fuel);
      if |component.instances| > 0 {
        var head := NewSceneItem(pathId, component.name, DEFAULT_SUPPLIED_REVISION_ID, None, None);
        var rest := FlattenInstances(catalog, component.instances, pathId, transform, parse, fuel - 1);
        SceneItemParent(pathId, component.name, DEFAULT_SUPPLIED_REVISION_ID, None, None);
        InstancesParents(catalog, component.instances, pathId, transform, parse, fuel - 1);
        ParentsBeforeHead(head, rest.items, ParentIdOf(pathId));
      }
    }
  }

  lemma {:induction false} InstancesParents(
    catalog: seq<Component>, instances: seq<ComponentInstance>, pathId: string,
    transform: Option<Core.Matrix4>, parse: string -> Option<real>, fuel: nat)
    requires CatalogIdsFree(catalog) && IdsFree(instances)
    ensures ParentsBefore(FlattenInstances(catalog, instances, pathId, transform, parse, fuel).items,
                          Some(SuppliedIdOf(pathId)))
    decreases fuel, |instances| + 2
  {
    if instances != [] {
      var init := instances[..|instances| - 1];
      var last := instances[|instances| - 1];
      InstancesParents(catalog, init, pathId, transform, parse, fuel);
      var done := FlattenInstances(catalog, init, pathId, transform, parse, fuel);
      if done.err.None? {
        InstanceParents(catalog, last, pathId, transform, parse, fuel);
        ParentsBeforeAppend(done.items, FlattenInstance(catalog, last, pathId, transform, parse, fuel).items,
                            Some(SuppliedIdOf(pathId)));
      }
    }
  }

  lemma {:induction false} InstanceParents(
    catalog: seq<Component>, inst: ComponentInstance, pathId: string,
    transform: Option<Core.Matrix4>, parse: string -> Option<real>, fuel: nat)
    requires CatalogIdsFree(catalog) && PATH_ID_SEPARATOR !in inst.id
    ensures ParentsBefore(FlattenInstance(catalog, inst, pathId, transform, parse, fuel).items,
                          Some(SuppliedIdOf(pathId)))
    decreases fuel, 1
  {
    if !Hidden(inst) && LocalTransform(inst, parse).Success? {
      var local := LocalTransform(inst, parse).value;
      var idx := ParseUsize(inst.index);
      if idx.Some? && idx.value < |catalog| {
        var childPath := pathId + [PATH_ID_SEPARATOR] + inst.id;
        NodeParents(catalog, catalog[idx.value], childPath, Some(Compose(transform, local)), parse, fuel);
        ChildParent(pathId, inst.id);
      }
    }
  }

  /**
   * In the output of a walk from the root, every record that names a parent
   * comes after the record of that parent, provided no instance identifier
   * contains `/`.
   */
  lemma FlattenParentsFirst(catalog: seq<Component>, rootIdx: nat, parse: string -> Option<real>)
    requires CatalogIdsFree(catalog)
    requires Flatten(catalog, rootIdx, parse).Success?
    ensures var items := Flatten(catalog, rootIdx, parse).value;
            forall i :: 0 <= i < |items| && items[i].parentId.Some? ==>
              exists j :: 0 <= j < i && items[j].suppliedId == items[i].parentId.value
  {
    NodeParents(catalog, catalog[rootIdx], Core.EMPTY_STR, None, parse, |catalog|);
  }

  // ---------------------------------------------------------------------
  // Termination

  /**
   * Every instance points to an earlier component, as in a catalog listed
   * children first: the walk then cannot cycle.
   */
  predicate PointsBackwards(catalog: seq<Component>) {
    forall i, k :: 0 <= i < |catalog| && 0 <= k < |catalog[i].instances| ==>
      ParseUsize(catalog[i].instances[k].index).Some? ==> ParseUsize(catalog[i].instances[k].index).value < i
  }

  predicate IndicesBelow(instances: seq<ComponentInstance>, bound: nat) {
    forall k :: 0 <= k < |instances| ==> ParseUsize(instances[k].index).Some? ==> ParseUsize(instances[k].index).value < bound
  }

  lemma {:induction false} NodeFuel(
    catalog: seq<Component>, i: nat, pathId: string,
    transform: Option<Core.Matrix4>, parse: string -> Option<real>, fuel: nat)
    requires PointsBackwards(catalog) && i < |catalog| && i < fuel
    ensures FlattenNode(catalog, catalog[i], pathId, transform, parse, fuel).err != Some(OutOfFuel)
    decreases fuel, 0
  {
    if |catalog[i].instances| > 0 {
      InstancesFuel(catalog, catalog[i].instances, pathId, transform, parse, fuel - 1);
    }
  }

  lemma {:induction false} InstancesFuel(
    catalog: seq<Component>, instances: seq<ComponentInstance>, pathId: string,
    transform: Option<Core.Matrix4>, parse: string -> Option<real>, fuel: nat)
    requires PointsBackwards(catalog) && IndicesBelow(instances, fuel)
    ensures FlattenInstances(catalog, instances, pathId, transform, parse, fuel).err != Some(OutOfFuel)
    decreases fuel, |instances| + 2
  {
    if instances != [] {
      var init := instances[..|instances| - 1];
      InstancesFuel(catalog, init, pathId, transform, parse, fuel);
      InstanceFuel(catalog, instances[|instances| - 1], pathId, transform, parse, fuel);
    }
  }

  lemma {:induction false} InstanceFuel(
    catalog: seq<Component>, inst: ComponentInstance, pathId: string,
    transform: Option<Core.Matrix4>, parse: string -> Option<real>, fuel: nat)
    requires PointsBackwards(catalog)
    requires ParseUsize(inst.index).Some? ==> ParseUsize(inst.index).value < fuel
    ensures FlattenInstance(catalog, inst, pathId, transform, parse, fuel).err != Some(OutOfFuel)
    decreases fuel, 1
  {
    if !Hidden(inst) && LocalTransform(inst, parse).Success? {
      var local := LocalTransform(inst, parse).value;
      var idx := ParseUsize(inst.index);
      if idx.Some? && idx.value < |catalog| {
        NodeFuel(catalog, idx.value, pathId + [PATH_ID_SEPARATOR] + inst.id,
                 Some(Compose(transform, local)), parse, fuel);
      }
    }
  }

  /** On a catalog whose instances point backwards, the walk never runs out of depth. */
  lemma FlattenTerminates(catalog: seq<Component>, rootIdx: nat, parse: string -> Option<real>)
    requires PointsBackwards(catalog)
    ensures Flatten(catalog, rootIdx, parse) != Failure(OutOfFuel)
  {
    if rootIdx < |catalog| {
      NodeFuel(catalog, rootIdx, Core.EMPTY_STR, None, parse, |catalog|);
    }
  }
}
