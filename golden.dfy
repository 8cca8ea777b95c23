/**
 * An end-to-end scenario: a four-component catalog (two parts, a
 * sub-assembly placing both, and a root placing the sub-assembly and one
 * part again) flattens into the five records of the integration test of
 * pvs/tests/integration_test.rs. The catalog is reconstructed from those
 * records; the number reader knows exactly the tokens it uses.
 */
module Golden {
  import opened Wrappers
  import opened Strings
  import Core
  import opened Pvs
  import opened PvsProperties

  /** The tiny offset the expected last record carries, before scaling. */
  const RESIDUE: real := 0.000000000000000000000000000017993725

  /** The number reader of the scenario. */
  function Number(s: string): Option<real> {
    if s == "0" then Some(0.0)
    else if s == "1" then Some(1.0)
    else if s == "-1" then Some(-1.0)
    else if s == "0.015" then Some(0.015)
    else if s == "0.03" then Some(0.03)
    else if s == "0.045" then Some(0.045)
    else if s == "1.7993725e-29" then Some(RESIDUE)
    else None
  }

  function Csv(tokens: seq<string>): string {
    Join(tokens, ',')
  }

  const BOLT: Component := Component([], "PN1, Bolt", Some(ShapeSource("PN1.ol")))
  const WASHER: Component := Component([], "PN0, Washer", Some(ShapeSource("PN0.ol")))

  const FLIP_TOKENS: seq<string> := ["1", "0", "0", "0", "-1", "0", "0", "0", "-1"]
  const TURN_TOKENS: seq<string> := ["1", "0", "0", "0", "0", "-1", "0", "1", "0"]
  const LIFT_TOKENS: seq<string> := ["0", "0.015", "0"]
  const SUB_TOKENS: seq<string> := ["0", "0.03", "0.045"]
  const SIDE_TOKENS: seq<string> := ["0", "1.7993725e-29", "0.03"]

  const BOLT_IN_SUB: ComponentInstance :=
    ComponentInstance(None, None, "104", "0", Some(Csv(FLIP_TOKENS)), Some(Csv(LIFT_TOKENS)))
  const WASHER_IN_SUB: ComponentInstance :=
    ComponentInstance(None, None, "107", "1", Some(Csv(TURN_TOKENS)), None)
  const SUB: Component := Component([BOLT_IN_SUB, WASHER_IN_SUB], "Sub-assembly", None)

  const SUB_IN_ROOT: ComponentInstance :=
    ComponentInstance(None, None, "109", "2", None, Some(Csv(SUB_TOKENS)))
  const WASHER_IN_ROOT: ComponentInstance :=
    ComponentInstance(None, None, "107", "1", None, Some(Csv(SIDE_TOKENS)))
  const ROOT: Component := Component([SUB_IN_ROOT, WASHER_IN_ROOT], "Assembly", None)

  const CATALOG: seq<Component> := [BOLT, WASHER, SUB, ROOT]

  // Placements, in millimetres.
  const FLIP: Core.Matrix4 :=
    [[1.0, 0.0, 0.0, 0.0], [0.0, -1.0, 0.0, 15.0], [0.0, 0.0, -1.0, 0.0], [0.0, 0.0, 0.0, 1.0]]
  const TURN: Core.Matrix4 :=
    [[1.0, 0.0, 0.0, 0.0], [0.0, 0.0, 1.0, 0.0], [0.0, -1.0, 0.0, 0.0], [0.0, 0.0, 0.0, 1.0]]
  const SUB_PLACE: Core.Matrix4 :=
    [[1.0, 0.0, 0.0, 0.0], [0.0, 1.0, 0.0, 30.0], [0.0, 0.0, 1.0, 45.0], [0.0, 0.0, 0.0, 1.0]]
  const SIDE_PLACE: Core.Matrix4 :=
    [[1.0, 0.0, 0.0, 0.0], [0.0, 1.0, 0.0, 1000.0 * RESIDUE], [0.0, 0.0, 1.0, 30.0], [0.0, 0.0, 0.0, 1.0]]
  const BOLT_PLACE: Core.Matrix4 :=
    [[1.0, 0.0, 0.0, 0.0], [0.0, -1.0, 0.0, 45.0], [0.0, 0.0, -1.0, 45.0], [0.0, 0.0, 0.0, 1.0]]
  const WASHER_PLACE: Core.Matrix4 :=
    [[1.0, 0.0, 0.0, 0.0], [0.0, 0.0, 1.0, 30.0], [0.0, -1.0, 0.0, 45.0], [0.0, 0.0, 0.0, 1.0]]

  function V(x: real, y: real, z: real, w: real): Core.Vector4f {
    Core.Vector4f(x, y, z, w)
  }

  /** The five records the integration test expects, in order. */
  const EXPECTED: seq<SceneItem> := [
    SceneItem(0, None, None, "/", None),
    SceneItem(1, Some("/"), None, "/109", None),
    SceneItem(2, Some("/109"), Some(Source("PN1.ol", "PN1, Bolt", "1")), "/109/104",
      Some(Core.Transform(V(1.0, 0.0, 0.0, 0.0), V(0.0, -1.0, 0.0, 45.0), V(0.0, 0.0, -1.0, 45.0), V(0.0, 0.0, 0.0, 1.0)))),
    SceneItem(2, Some("/109"), Some(Source("PN0.ol", "PN0, Washer", "1")), "/109/107",
      Some(Core.Transform(V(1.0, 0.0, 0.0, 0.0), V(0.0, 0.0, 1.0, 30.0), V(0.0, -1.0, 0.0, 45.0), V(0.0, 0.0, 0.0, 1.0)))),
    SceneItem(1, Some("/"), Some(Source("PN0.ol", "PN0, Washer", "1")), "/107",
      Some(Core.Transform(V(1.0, 0.0, 0.0, 0.0), V(0.0, 1.0, 0.0, 0.000000000000000000000000017993725),
                          V(0.0, 0.0, 1.0, 30.0), V(0.0, 0.0, 0.0, 1.0))))
  ]

  // ---------------------------------------------------------------------
  // The placement of each instance

  /** A comma-separated list of numbers the reader knows reads back as those numbers. */
  lemma CsvReads(tokens: seq<string>, values: seq<real>)
    requires |tokens| >= 1 && |values| == |tokens|
    requires forall k :: 0 <= k < |tokens| ==> ',' !in tokens[k] && Number(tokens[k]) == Some(values[k])
    ensures Core.FloatArr(Csv(tokens), Number) == Success(values)
  {
    SplitJoin(tokens, ',');
    var r := Core.ParseTokens(tokens, Number);
    assert forall k :: 0 <= k < |tokens| ==> Number(tokens[k]).Some?;
    assert r.value == values;
  }

  lemma FlipReads()
    ensures Core.FloatArr(Csv(FLIP_TOKENS), Number) == Success([1.0, 0.0, 0.0, 0.0, -1.0, 0.0, 0.0, 0.0, -1.0])
  {
    CsvReads(FLIP_TOKENS, [1.0, 0.0, 0.0, 0.0, -1.0, 0.0, 0.0, 0.0, -1.0]);
  }

  lemma TurnReads()
    ensures Core.FloatArr(Csv(TURN_TOKENS), Number) == Success([1.0, 0.0, 0.0, 0.0, 0.0, -1.0, 0.0, 1.0, 0.0])
  {
    CsvReads(TURN_TOKENS, [1.0, 0.0, 0.0, 0.0, 0.0, -1.0, 0.0, 1.0, 0.0]);
  }

  lemma LiftReads()
    ensures Core.FloatArr(Csv(LIFT_TOKENS), Number) == Success([0.0, 0.015, 0.0])
  {
    CsvReads(LIFT_TOKENS, [0.0, 0.015, 0.0]);
  }

  lemma SubReads()
    ensures Core.FloatArr(Csv(SUB_TOKENS), Number) == Success([0.0, 0.03, 0.045])
  {
    CsvReads(SUB_TOKENS, [0.0, 0.03, 0.045]);
  }

  lemma SideReads()
    ensures Core.FloatArr(Csv(SIDE_TOKENS), Number) == Success([0.0, RESIDUE, 0.03])
  {
    CsvReads(SIDE_TOKENS, [0.0, RESIDUE, 0.03]);
  }

  lemma BoltInSubPlacement()
    ensures LocalTransform(BOLT_IN_SUB, Number) == Success(FLIP)
  {
    var o, t := [1.0, 0.0, 0.0, 0.0, -1.0, 0.0, 0.0, 0.0, -1.0], [0.0, 0.015, 0.0];
    FlipReads();
    LiftReads();
    PlacementReads(BOLT_IN_SUB, Number, o, t);
    assert ToFourByFour(o, t, TRANSLATION_SCALE) == FLIP;
  }

  lemma WasherInSubPlacement()
    ensures LocalTransform(WASHER_IN_SUB, Number) == Success(TURN)
  {
    var o, t := [1.0, 0.0, 0.0, 0.0, 0.0, -1.0, 0.0, 1.0, 0.0], [0.0, 0.0, 0.0];
    TurnReads();
    DefaultTranslationReads(Number);
    PlacementReads(WASHER_IN_SUB, Number, o, t);
    assert ToFourByFour(o, t, TRANSLATION_SCALE) == TURN;
  }

  lemma SubInRootPlacement()
    ensures LocalTransform(SUB_IN_ROOT, Number) == Success(SUB_PLACE)
  {
    var o, t := [1.0, 0.0, 0.0, 0.0, 1.0, 0.0, 0.0, 0.0, 1.0], [0.0, 0.03, 0.045];
    DefaultOrientationReads(Number);
    SubReads();
    PlacementReads(SUB_IN_ROOT, Number, o, t);
    assert ToFourByFour(o, t, TRANSLATION_SCALE) == SUB_PLACE;
  }

  lemma WasherInRootPlacement()
    ensures LocalTransform(WASHER_IN_ROOT, Number) == Success(SIDE_PLACE)
  {
    var o, t := [1.0, 0.0, 0.0, 0.0, 1.0, 0.0, 0.0, 0.0, 1.0], [0.0, RESIDUE, 0.03];
    DefaultOrientationReads(Number);
    SideReads();
    PlacementReads(WASHER_IN_ROOT, Number, o, t);
    assert ToFourByFour(o, t, TRANSLATION_SCALE) == SIDE_PLACE;
  }

  /** The sub-assembly's placement composed with each of its instances'. */
  lemma Composed()
    ensures Core.Product(SUB_PLACE, FLIP) == BOLT_PLACE
    ensures Core.Product(SUB_PLACE, TURN) == WASHER_PLACE
  {
    forall r, c | 0 <= r < 4 && 0 <= c < 4
      ensures Core.Product(SUB_PLACE, FLIP)[r][c] == BOLT_PLACE[r][c]
      ensures Core.Product(SUB_PLACE, TURN)[r][c] == WASHER_PLACE[r][c]
    {
      Core.ProductEntry(SUB_PLACE, FLIP, r, c);
      Core.ProductEntry(SUB_PLACE, TURN, r, c);
      assert r == 0 || r == 1 || r == 2 || r == 3;
      assert c == 0 || c == 1 || c == 2 || c == 3;
    }
    Core.MatrixExt(Core.Product(SUB_PLACE, FLIP), BOLT_PLACE);
    Core.MatrixExt(Core.Product(SUB_PLACE, TURN), WASHER_PLACE);
  }

  /** The three indices of the scenario read as themselves. */
  lemma IndicesRead()
    ensures ParseUsize("0") == Some(0) && ParseUsize("1") == Some(1) && ParseUsize("2") == Some(2)
  {
    ParseUsizeDecimal(0);
    ParseUsizeDecimal(1);
    ParseUsizeDecimal(2);
    assert Decimal(0) == "0" && Decimal(1) == "1" && Decimal(2) == "2";
  }

  // ---------------------------------------------------------------------
  // The records

  /** A leaf record at `path/id` below `path`, read off the record lemmas. */
  lemma LeafRecord(path: string, id: string, leaf: Component, place: Core.Matrix4, depth: nat)
    requires ',' !in id && PATH_ID_SEPARATOR !in id && id != []
    requires leaf.shapeSource.Some?
    requires Occurrences(path, PATH_ID_SEPARATOR) + 1 == depth
    requires !Core.Is4x4Identity(place)
    ensures NewSceneItem(path + [PATH_ID_SEPARATOR] + id, leaf.name, DEFAULT_SUPPLIED_REVISION_ID,
                         Some(leaf.shapeSource.value.fileName), Some(place))
         == SceneItem(depth, Some(SuppliedIdOf(path)), Some(Source(leaf.shapeSource.value.fileName, leaf.name, "1")),
                      path + [PATH_ID_SEPARATOR] + id, Some(Core.ToTransform(place)))
  {
    var childPath := path + [PATH_ID_SEPARATOR] + id;
    var item := NewSceneItem(childPath, leaf.name, DEFAULT_SUPPLIED_REVISION_ID,
                             Some(leaf.shapeSource.value.fileName), Some(place));
    SceneItemDepth(childPath, leaf.name, DEFAULT_SUPPLIED_REVISION_ID, Some(leaf.shapeSource.value.fileName), Some(place));
    OccurrencesAppend(path, id, PATH_ID_SEPARATOR);
    SceneItemParent(childPath, leaf.name, DEFAULT_SUPPLIED_REVISION_ID, Some(leaf.shapeSource.value.fileName), Some(place));
    ChildParent(path, id);
    Core.ToTransformOfMatrix(item.transform.value);
  }

  lemma BoltRecord()
    ensures FlattenNode(CATALOG, BOLT, "/109/104", Some(BOLT_PLACE), Number, 2) == Emission([EXPECTED[2]], None)
  {
    assert "/109/104" == "/109" + [PATH_ID_SEPARATOR] + "104";
    assert Occurrences("/109", PATH_ID_SEPARATOR) == 1 by {
      OccurrencesAppend("", "109", PATH_ID_SEPARATOR);
      assert "/109" == "" + [PATH_ID_SEPARATOR] + "109";
    }
    assert BOLT_PLACE[1][1] != 1.0;
    LeafRecord("/109", "104", BOLT, BOLT_PLACE, 2);
  }

  lemma WasherInSubRecord()
    ensures FlattenNode(CATALOG, WASHER, "/109/107", Some(WASHER_PLACE), Number, 2) == Emission([EXPECTED[3]], None)
  {
    assert "/109/107" == "/109" + [PATH_ID_SEPARATOR] + "107";
    assert Occurrences("/109", PATH_ID_SEPARATOR) == 1 by {
      OccurrencesAppend("", "109", PATH_ID_SEPARATOR);
      assert "/109" == "" + [PATH_ID_SEPARATOR] + "109";
    }
    assert WASHER_PLACE[1][1] != 1.0;
    LeafRecord("/109", "107", WASHER, WASHER_PLACE, 2);
  }

  lemma WasherInRootRecord()
    ensures FlattenNode(CATALOG, WASHER, "/107", Some(SIDE_PLACE), Number, 3) == Emission([EXPECTED[4]], None)
  {
    assert "/107" == "" + [PATH_ID_SEPARATOR] + "107";
    assert SIDE_PLACE[1][3] != 0.0;
    LeafRecord("", "107", WASHER, SIDE_PLACE, 1);
  }

  /** The record of a composite at `path/id` below `path`. */
  lemma CompositeRecord(path: string, id: string, name: string, depth: nat)
    requires PATH_ID_SEPARATOR !in id && id != []
    requires Occurrences(path, PATH_ID_SEPARATOR) + 1 == depth
    ensures NewSceneItem(path + [PATH_ID_SEPARATOR] + id, name, DEFAULT_SUPPLIED_REVISION_ID, None, None)
         == SceneItem(depth, Some(SuppliedIdOf(path)), None, path + [PATH_ID_SEPARATOR] + id, None)
  {
    var childPath := path + [PATH_ID_SEPARATOR] + id;
    SceneItemDepth(childPath, name, DEFAULT_SUPPLIED_REVISION_ID, None, None);
    OccurrencesAppend(path, id, PATH_ID_SEPARATOR);
    SceneItemParent(childPath, name, DEFAULT_SUPPLIED_REVISION_ID, None, None);
    ChildParent(path, id);
  }

  /** An instance that reads, resolves and whose child walk is known contributes that walk. */
  lemma Descends(
    catalog: seq<Component>, inst: ComponentInstance, pathId: string,
    transform: Option<Core.Matrix4>, parse: string -> Option<real>, fuel: nat,
    local: Core.Matrix4, idx: nat, childPath: string, place: Core.Matrix4, e: Emission)
    requires !Hidden(inst)
    requires LocalTransform(inst, parse) == Success(local)
    requires ParseUsize(inst.index) == Some(idx) && idx < |catalog|
    requires pathId + [PATH_ID_SEPARATOR] + inst.id == childPath && Compose(transform, local) == place
    requires FlattenNode(catalog, catalog[idx], childPath, Some(place), parse, fuel) == e
    ensures FlattenInstance(catalog, inst, pathId, transform, parse, fuel) == e
  {
    InstanceDescends(catalog, inst, pathId, transform, parse, fuel, local, idx);
  }

  /** Where the bolt's instance in the sub-assembly places it. */
  lemma BoltInSubPlaces()
    ensures LocalTransform(BOLT_IN_SUB, Number) == Success(FLIP)
    ensures Compose(Some(SUB_PLACE), FLIP) == BOLT_PLACE
  {
    assert LocalTransform(BOLT_IN_SUB, Number) == Success(FLIP) by { BoltInSubPlacement(); }
    assert Compose(Some(SUB_PLACE), FLIP) == BOLT_PLACE by { Composed(); }
  }

  /** Which component the bolt's instance in the sub-assembly resolves to, and its path. */
  lemma BoltInSubResolves()
    ensures !Hidden(BOLT_IN_SUB) && ParseUsize(BOLT_IN_SUB.index) == Some(0) && CATALOG[0] == BOLT
    ensures "/109" + [PATH_ID_SEPARATOR] + BOLT_IN_SUB.id == "/109/104"
  {
    assert "/109" + [PATH_ID_SEPARATOR] + "104" == "/109/104";
    assert ParseUsize(BOLT_IN_SUB.index) == Some(0) by { IndicesRead(); }
  }

  lemma BoltInSubStep()
    ensures FlattenInstance(CATALOG, BOLT_IN_SUB, "/109", Some(SUB_PLACE), Number, 2) == Emission([EXPECTED[2]], None)
  {
    BoltInSubPlaces();
    BoltInSubResolves();
    BoltRecord();
    Descends(CATALOG, BOLT_IN_SUB, "/109", Some(SUB_PLACE), Number, 2, FLIP, 0, "/109/104", BOLT_PLACE,
             Emission([EXPECTED[2]], None));
  }

  /** Where the washer's instance in the sub-assembly places it. */
  lemma WasherInSubPlaces()
    ensures LocalTransform(WASHER_IN_SUB, Number) == Success(TURN)
    ensures Compose(Some(SUB_PLACE), TURN) == WASHER_PLACE
  {
    assert LocalTransform(WASHER_IN_SUB, Number) == Success(TURN) by { WasherInSubPlacement(); }
    assert Compose(Some(SUB_PLACE), TURN) == WASHER_PLACE by { Composed(); }
  }

  /** Which component the washer's instance in the sub-assembly resolves to, and its path. */
  lemma WasherInSubResolves()
    ensures !Hidden(WASHER_IN_SUB) && ParseUsize(WASHER_IN_SUB.index) == Some(1) && CATALOG[1] == WASHER
    ensures "/109" + [PATH_ID_SEPARATOR] + WASHER_IN_SUB.id == "/109/107"
  {
    assert "/109" + [PATH_ID_SEPARATOR] + "107" == "/109/107";
    assert ParseUsize(WASHER_IN_SUB.index) == Some(1) by { IndicesRead(); }
  }

  lemma WasherInSubStep()
    ensures FlattenInstance(CATALOG, WASHER_IN_SUB, "/109", Some(SUB_PLACE), Number, 2) == Emission([EXPECTED[3]], None)
  {
    WasherInSubPlaces();
    WasherInSubResolves();
    WasherInSubRecord();
    Descends(CATALOG, WASHER_IN_SUB, "/109", Some(SUB_PLACE), Number, 2, TURN, 1, "/109/107", WASHER_PLACE,
             Emission([EXPECTED[3]], None));
  }

  /** Two instances, the first of which completes, push one's records and then the other's. */
  lemma TwoInstances(
    catalog: seq<Component>, a: ComponentInstance, b: ComponentInstance, pathId: string,
    transform: Option<Core.Matrix4>, parse: string -> Option<real>, fuel: nat,
    first: seq<SceneItem>, second: seq<SceneItem>)
    requires FlattenInstance(catalog, a, pathId, transform, parse, fuel) == Emission(first, None)
    requires FlattenInstance(catalog, b, pathId, transform, parse, fuel) == Emission(second, None)
    ensures FlattenInstances(catalog, [a, b], pathId, transform, parse, fuel) == Emission(first + second, None)
  {
    assert [a, b][..1] == [a] && [a][..0] == [] && [] + first == first;
    assert FlattenInstances(catalog, [a], pathId, transform, parse, fuel) == Emission(first, None);
  }

  /** A composite whose two instances complete. */
  lemma TwoInstanceComposite(
    catalog: seq<Component>, component: Component, pathId: string,
    transform: Option<Core.Matrix4>, parse: string -> Option<real>, fuel: nat,
    head: SceneItem, first: seq<SceneItem>, second: seq<SceneItem>)
    requires fuel > 0 && |component.instances| == 2
    requires head == NewSceneItem(pathId, component.name, DEFAULT_SUPPLIED_REVISION_ID, None, None)
    requires FlattenInstance(catalog, component.instances[0], pathId, transform, parse, fuel - 1) == Emission(first, None)
    requires FlattenInstance(catalog, component.instances[1], pathId, transform, parse, fuel - 1) == Emission(second, None)
    ensures FlattenNode(catalog, component, pathId, transform, parse, fuel) == Emission([head] + first + second, None)
  {
    assert component.instances == [component.instances[0], component.instances[1]];
    TwoInstances(catalog, component.instances[0], component.instances[1], pathId, transform, parse, fuel - 1,
                 first, second);
    AppendAssoc([head], first, second);
  }

  /** The sub-assembly pushes its own record, then the bolt's and the washer's. */
  lemma SubRecords()
    ensures FlattenNode(CATALOG, SUB, "/109", Some(SUB_PLACE), Number, 3) == Emission(EXPECTED[1..4], None)
  {
    assert "/109" == "" + [PATH_ID_SEPARATOR] + "109";
    assert EXPECTED[1..4] == [EXPECTED[1]] + [EXPECTED[2]] + [EXPECTED[3]];
    CompositeRecord("", "109", SUB.name, 1);
    BoltInSubStep();
    WasherInSubStep();
    TwoInstanceComposite(CATALOG, SUB, "/109", Some(SUB_PLACE), Number, 3, EXPECTED[1], [EXPECTED[2]], [EXPECTED[3]]);
  }

  /** Where the sub-assembly's instance in the root places it. */
  lemma SubInRootPlaces()
    ensures LocalTransform(SUB_IN_ROOT, Number) == Success(SUB_PLACE)
    ensures Compose(None, SUB_PLACE) == SUB_PLACE
  {
    assert LocalTransform(SUB_IN_ROOT, Number) == Success(SUB_PLACE) by { SubInRootPlacement(); }
  }

  /** Which component the sub-assembly's instance in the root resolves to, and its path. */
  lemma SubInRootResolves()
    ensures !Hidden(SUB_IN_ROOT) && ParseUsize(SUB_IN_ROOT.index) == Some(2) && CATALOG[2] == SUB
    ensures "" + [PATH_ID_SEPARATOR] + SUB_IN_ROOT.id == "/109"
  {
    assert "" + [PATH_ID_SEPARATOR] + "109" == "/109";
    assert ParseUsize(SUB_IN_ROOT.index) == Some(2) by { IndicesRead(); }
  }

  lemma SubInRootStep()
    ensures FlattenInstance(CATALOG, SUB_IN_ROOT, "", None, Number, 3) == Emission(EXPECTED[1..4], None)
  {
    SubInRootPlaces();
    SubInRootResolves();
    SubRecords();
    Descends(CATALOG, SUB_IN_ROOT, "", None, Number, 3, SUB_PLACE, 2, "/109", SUB_PLACE,
             Emission(EXPECTED[1..4], None));
  }

  /** Where the washer's instance in the root places it. */
  lemma WasherInRootPlaces()
    ensures LocalTransform(WASHER_IN_ROOT, Number) == Success(SIDE_PLACE)
    ensures Compose(None, SIDE_PLACE) == SIDE_PLACE
  {
    assert LocalTransform(WASHER_IN_ROOT, Number) == Success(SIDE_PLACE) by { WasherInRootPlacement(); }
  }

  /** Which component the washer's instance in the root resolves to, and its path. */
  lemma WasherInRootResolves()
    ensures !Hidden(WASHER_IN_ROOT) && ParseUsize(WASHER_IN_ROOT.index) == Some(1) && CATALOG[1] == WASHER
    ensures "" + [PATH_ID_SEPARATOR] + WASHER_IN_ROOT.id == "/107"
  {
    assert "" + [PATH_ID_SEPARATOR] + "107" == "/107";
    assert ParseUsize(WASHER_IN_ROOT.index) == Some(1) by { IndicesRead(); }
  }

  lemma WasherInRootStep()
    ensures FlattenInstance(CATALOG, WASHER_IN_ROOT, "", None, Number, 3) == Emission([EXPECTED[4]], None)
  {
    WasherInRootPlaces();
    WasherInRootResolves();
    WasherInRootRecord();
    Descends(CATALOG, WASHER_IN_ROOT, "", None, Number, 3, SIDE_PLACE, 1, "/107", SIDE_PLACE,
             Emission([EXPECTED[4]], None));
  }

  /**
   * The whole run: the last component is the root, and the walk yields the
   * five expected records in order.
   */
  lemma GoldenOutput()
    ensures FlattenCatalog(CATALOG, Number) == Success(EXPECTED)
  {
    assert EXPECTED == [EXPECTED[0]] + EXPECTED[1..4] + [EXPECTED[4]];
    SceneItemDepth("", ROOT.name, DEFAULT_SUPPLIED_REVISION_ID, None, None);
    SceneItemParent("", ROOT.name, DEFAULT_SUPPLIED_REVISION_ID, None, None);
    assert NewSceneItem("", ROOT.name, DEFAULT_SUPPLIED_REVISION_ID, None, None) == EXPECTED[0];
    SubInRootStep();
    WasherInRootStep();
    TwoInstanceComposite(CATALOG, ROOT, "", None, Number, 4, EXPECTED[0], EXPECTED[1..4], [EXPECTED[4]]);
  }
}
