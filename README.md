# PVS assembly flattener, modelled in Dafny

The `pvs` crate reads a PVS product-structure document and flattens its
assembly tree into a list of `SceneItem` records. The document holds a
catalog of components addressed by index. A component is one of three kinds:

- a composite, which holds component instances;
- a leaf, which has a shape source;
- inert, which has neither.

The last component in the catalog is the root. `add_items` walks the tree
depth-first in pre-order from the root. It pushes one record for each
composite it enters and one for each leaf it reaches, and skips instances
flagged hidden.

- Every visible instance contributes a placement; a hidden one is skipped
  before its strings are read, so a malformed string on it is no error. The
  instance's orientation and translation strings are read as comma-separated
  numbers; the defaults `"1,0,0,0,1,0,0,0,1"` and `"0,0,0"` stand in when a
  string is absent.
  `to_4x4` turns the numbers into a 4x4 matrix, transposing the orientation
  and scaling the translation by 1000.
- A child's placement is its parent's placement times its own.
- Each record carries four things:
  - its path (`/109/104`, or `/` for the root);
  - its parent's path (the root record `/` has none);
  - its depth;
  - for leaves, the file name of its geometry and the accumulated placement.
    The placement is left out when it is exactly the identity.

The `core` crate supplies the helpers:

- the `ZERO` and `IDENTITY` matrices and the exact identity test;
- the triple-loop matrix product;
- the comma-separated number reader `to_float_arr`;
- the fixed-length conversions `to_arr_3` and `to_arr_9`, which panic on a
  wrong length;
- `to_transform`, which turns a matrix into its serialisable row records.

The Dafny files:

- `wrappers.dfy`: `Option` and `Result`.
- `strings.dfy`: Rust's `str::split` and `join` on one separator character,
  the last-separator helpers, and `usize::from_str`.
- `core.dfy`: the `core` crate.
- `pvs.dfy`: the `pvs` crate. The walk is stated twice:
  - as functions (`FlattenNode`, `FlattenInstances`, `FlattenInstance`),
    which return the items pushed and the error that stopped the walk;
  - as methods over a mutable `SceneItemList` (`AddItems` and its helpers,
    `CreateItems`, `Run`), which are proved to push exactly those items and
    return exactly that error.
- `pvs_properties.dfy`: what every walk guarantees.
- `golden.dfy`: the five-record scenario of the crate's integration test,
  worked through end to end.

Errors follow the source:

- An `Err` that Rust propagates with `?` is a `Failure`. The cases are a bad
  number token and a bad index string.
- A failure that aborts the process is a `Failure` whose `Aborts()` holds.
  The panics are:
  - a wrong vector length;
  - an index past the end of the catalog;
  - an empty catalog.

  `OutOfFuel` also aborts, but it is not a panic: it stands for the stack
  overflow of the unbounded recursion on a cyclic catalog.
- Items pushed before an error stay pushed. `Emission` records them, so the
  methods' postconditions describe the partial output exactly.

## Model

| member | source | states |
|---|---|---|
| Core.Is4x4Identity | core/src/lib.rs:52-54 | true exactly when every entry equals the identity's entry at that position (both directions) |
| Core.IdentityTestCases | core/src/lib.rs:140-148 | `ZERO` is not the identity; `IDENTITY` is |
| Core.ProductEntry | core/src/lib.rs:56-67 | entry (r, c) of the product is the sum over i of `xs[r][i] * ys[i][c]`, in loop order |
| Core.Multiply4x4 | core/src/lib.rs:56-67 | the triple loop that accumulates into a copy of `ZERO` returns the product matrix |
| Core.ProductIdentityLeft | core/src/lib.rs:56-67 | `IDENTITY * a == a` |
| Core.ProductIdentityRight | core/src/lib.rs:56-67 | `a * IDENTITY == a` |
| Core.ProductZero | core/src/lib.rs:56-67 | `ZERO * a == ZERO` and `a * ZERO == ZERO` |
| Core.MultiplyTestCases | core/src/lib.rs:150-190 | the three products the unit tests check: zeros, identities, and the worked 4x4 example |
| Core.ProductAffine | core/src/lib.rs:56-67 | the product of two matrices whose last row is `[0, 0, 0, 1]` again has that last row |
| Core.ToArr3 | core/src/lib.rs:69-72 | succeeds with the same elements exactly when the vector has length 3; otherwise fails with a length mismatch that aborts |
| Core.ToArr9 | core/src/lib.rs:74-77 | the same, for length 9 |
| Core.ParseTokens | core/src/lib.rs:79-87 | succeeds exactly when every token parses, with one number per token in order; otherwise fails with the first token that does not parse |
| Core.FloatArrLength | core/src/lib.rs:79-87 | on success there is one number per comma, plus one |
| Core.ToFloatArr | core/src/lib.rs:79-87 | the push loop with its early return yields the numbers read from the comma-separated pieces, or the first failure |
| Core.ToTransform | core/src/lib.rs:89-116 | the record's four rows, read back as a matrix, are the original matrix |
| Core.ToTransformOfMatrix | core/src/lib.rs:89-116 | turning a record's rows into a matrix and back gives the same record |
| Core.AffineTransformRecord | core/src/lib.rs:89-116 | a matrix whose last row is `[0, 0, 0, 1]` gives a last record `(0, 0, 0, 1)` |
| Strings.Split | core/src/lib.rs:80 | `str::split` on one character: at least one piece, and no piece contains the separator (JoinSplit, SplitLength and SplitJoin relate it to `Join`) |
| Strings.Join | pvs/src/lib.rs:58 | `join`: the pieces with one separator between neighbours; no contract of its own, JoinSplit and SplitJoin make it the inverse of `Split` |
| Strings.DigitsValue | pvs/src/lib.rs:199 | the digit loop of `usize::from_str` with its overflow check: succeeds exactly when the string is non-empty, all digits and its decimal value is below 2^64, and then yields that value |
| Strings.JoinSplit | pvs/src/lib.rs:53-58 | joining the pieces of a split with the separator gives back the string |
| Strings.SplitLength | pvs/src/lib.rs:60-63 | a split has one piece more than the string has separators |
| Strings.SplitJoin | core/src/lib.rs:80 | splitting a join of separator-free pieces gives back the pieces |
| Strings.JoinDropLast | pvs/src/lib.rs:53-58 | dropping the last piece of a split and joining the rest gives the text before the last separator |
| Strings.ParseUsize | pvs/src/lib.rs:199 | `usize::from_str`: with the digits being the string after an optional leading `+`, the read succeeds exactly when the string is non-empty, the digits are non-empty, all decimal and their value is below 2^64, and then yields that value (so `007` and `+7` read as 7; `-7`, `+` and the empty string fail) |
| Strings.ParseUsizeDecimal | pvs/src/lib.rs:199 | every value below 2^64, written in decimal, reads back as itself |
| Strings.ParseUsizeShape | pvs/src/lib.rs:199 | a string that reads as an index is an optional `+` followed by digits |
| Pvs.SuppliedIdOf | pvs/src/lib.rs:48-52 | the record identifier: the path, or `/` for the empty path (no contract of its own; SceneItemParent and NewSceneItem state it) |
| Pvs.NewSceneItem | pvs/src/lib.rs:40-89 | the identifier is the path, or `/` for the empty path; a source is present exactly when a file name is given, and it holds the file name, part name and revision; a transform is present exactly when a placement is given and is not the identity, and its rows are that placement |
| Pvs.ToFourByFour | pvs/src/lib.rs:229-251 | the upper-left 3x3 block is the row-major orientation transposed; column 3 of rows 0-2 is the translation times the scale; the last row is `[0, 0, 0, 1]` |
| Pvs.LocalTransform | pvs/src/lib.rs:188-198 | an instance's placement reads exactly when both strings (or their defaults) read, with 9 and 3 numbers; the placement is then affine; a failure aborts exactly when a string read but had the wrong count (the `to_arr` panic), and is otherwise a propagated number error |
| Pvs.Compose | pvs/src/lib.rs:204-207 | the placement handed to a child: the parent's placement times the local one, or the local one at the top (definition; InstanceDescends uses it) |
| Pvs.Hidden | pvs/src/lib.rs:184 | an instance is skipped when `hide_self` or `hide_child` is set, an absent flag counting as false (definition; Visible and HiddenSkipped state its effect) |
| Pvs.FlattenNode | pvs/src/lib.rs:167-227 | `add_items` as a function: the items pushed and the error that stopped the walk; its properties are NodeShape, NodeAffine, NodeParents and NodeFuel, and AddItems is proved equal to it |
| Pvs.FlattenInstances | pvs/src/lib.rs:183-210 | the loop over a composite's instances, stopping at the first error (FlattenInstancesStep, FlattenInstancesStops and HiddenSkipped state it; AddInstances is proved equal to it) |
| Pvs.FlattenInstance | pvs/src/lib.rs:184-209 | one instance: hide test, placement, index read and range check, then the child's walk at `path/id` (InstanceDescends states it; AddInstance is proved equal to it) |
| Pvs.Flatten | pvs/src/lib.rs:158-165 | `create_items`: all the walk's items from the root at the empty path, or its error (FlattenRoot, FlattenAffine, FlattenParentsFirst and FlattenTerminates are about it; CreateItems is proved equal to it) |
| Pvs.FlattenCatalog | pvs/src/lib.rs:145-151 | `run` once the document is read: the walk from the last component, `EmptyCatalog` when there is none (Run is proved equal to it; GoldenOutput evaluates it) |
| Pvs.FlattenInstancesStops | pvs/src/lib.rs:183-210 | once an instance of a composite has failed, the later instances add nothing and the error stays |
| Pvs.FlattenInstancesStep | pvs/src/lib.rs:183-210 | while no error has occurred, the walk over the first k+1 instances is the walk over the first k followed by instance k |
| Pvs.SceneItemList.constructor | pvs/src/lib.rs:162 | the list starts empty |
| Pvs.SceneItemList.Push | pvs/src/lib.rs:175-181 | appends one item and changes nothing else |
| Pvs.InstanceTransform | pvs/src/lib.rs:188-198 | reads the orientation, checks its length, then reads and checks the translation, with the same result as `LocalTransform`, errors included |
| Pvs.AddItems | pvs/src/lib.rs:167-227 | pushes exactly the items of the walk from a component after what the list held, and returns exactly the walk's error |
| Pvs.AddComposite | pvs/src/lib.rs:174-211 | a composite pushes its own record (no source, no placement) and then its instances' items, and returns their error |
| Pvs.AddInstances | pvs/src/lib.rs:183-210 | the loop over the instances pushes their items in order and returns the first error |
| Pvs.AddInstance | pvs/src/lib.rs:184-209 | a hidden instance pushes nothing; otherwise the placement is read, the index is parsed and looked up, and the child is walked at `path/id` with the parent's placement times the local one |
| Pvs.CreateItems | pvs/src/lib.rs:158-165 | returns all the walk's items from the root at the empty path with no placement, or the error; never a partial list |
| Pvs.Run | pvs/src/lib.rs:145-151 | the walk from the last component of the catalog |
| PvsProperties.SceneItemDepth | pvs/src/lib.rs:60-63 | a record's depth is the number of `/` in its path |
| PvsProperties.SceneItemParent | pvs/src/lib.rs:53-71 | a record's parent is the text before the last `/` of its identifier (`/` when that is empty), and the root has none |
| PvsProperties.ChildParent | pvs/src/lib.rs:53-71 | for an `id` without `/`, the parent of `path/id` is the identifier of `path` (and there is none only for `/` itself) |
| PvsProperties.ChildItem | pvs/src/lib.rs:40-89 | for an `id` without `/`, the record at `path/id` is one level deeper than the one at `path` and names its identifier as parent (none for `/`) |
| PvsProperties.DefaultOrientationTokens | pvs/src/lib.rs:12 | the default orientation splits into the nine tokens of the identity rotation |
| PvsProperties.DefaultTranslationTokens | pvs/src/lib.rs:14 | the default translation splits into three zeros |
| PvsProperties.DefaultOrientationReads | pvs/src/lib.rs:12 | with a reader that reads `0` and `1`, the default orientation reads as the identity rotation |
| PvsProperties.DefaultTranslationReads | pvs/src/lib.rs:14 | the default translation reads as three zeros |
| PvsProperties.DefaultPlacement | pvs/src/lib.rs:188-198 | an instance with neither orientation nor translation is placed at the identity |
| PvsProperties.NodeShape | pvs/src/lib.rs:174-226 | a composite's walk starts with its own record (no source, no transform); a leaf pushes exactly one record with its file name, whose transform is present exactly when the accumulated placement is given and not the identity and then has that placement's rows; an inert component pushes nothing and succeeds |
| PvsProperties.InstanceDescends | pvs/src/lib.rs:199-209 | a visible instance whose placement and index read contributes the walk of the indexed component at `path/id`, with the composed placement |
| PvsProperties.InstanceFails | pvs/src/lib.rs:188-202 | a visible instance whose placement does not read stops with that error; an unreadable index stops with the propagated `IndexFormat`; an index past the catalog stops with the aborting `IndexOutOfRange`; none pushes anything |
| PvsProperties.PlacementReads | pvs/src/lib.rs:188-198 | when both strings read with 9 and 3 numbers, the placement is `to_4x4` of them with scale 1000 |
| PvsProperties.FlattenRoot | pvs/src/lib.rs:158-165 | a non-empty successful result starts with the root record: identifier `/`, no parent, depth 0 |
| PvsProperties.Visible | pvs/src/lib.rs:184-186 | keeps exactly the instances that are not hidden |
| PvsProperties.HiddenSkipped | pvs/src/lib.rs:184-186 | walking all instances gives the same result as walking only the visible ones |
| PvsProperties.NodeAffine | pvs/src/lib.rs:174-226 | from an affine or absent placement, every placement a walk pushes has last row `[0, 0, 0, 1]` |
| PvsProperties.FlattenAffine | pvs/src/lib.rs:158-165 | every record of a successful result has last row `(0, 0, 0, 1)` |
| PvsProperties.NodeParents | pvs/src/lib.rs:174-226 | for a catalog whose instance ids contain no `/`, each record a walk pushes names as parent either the walk's own parent or a record pushed earlier in the walk |
| PvsProperties.FlattenParentsFirst | pvs/src/lib.rs:158-165 | when no instance id contains `/`, every record that names a parent comes after a record with that identifier |
| PvsProperties.NodeFuel | pvs/src/lib.rs:167-227 | when every composite's instances point to earlier catalog entries, the walk from entry i never runs out of depth budget when the budget exceeds i |
| PvsProperties.FlattenTerminates | pvs/src/lib.rs:158-165 | for such a catalog, the walk never stops with `OutOfFuel`, because the recursion is bounded |
| Golden.BoltRecord | pvs/tests/integration_test.rs:23-59 | the bolt leaf at `/109/104` with its placement gives the expected third record |
| Golden.WasherInSubRecord | pvs/tests/integration_test.rs:60-96 | the washer leaf at `/109/107` gives the expected fourth record |
| Golden.WasherInRootRecord | pvs/tests/integration_test.rs:97-133 | the washer leaf at `/107` gives the expected fifth record |
| Golden.BoltInSubStep | pvs/tests/integration_test.rs:23-59 | the bolt's instance in the sub-assembly (flipped, lifted 15 mm) contributes the third record |
| Golden.WasherInSubStep | pvs/tests/integration_test.rs:60-96 | the washer's instance in the sub-assembly (turned a quarter) contributes the fourth record |
| Golden.SubRecords | pvs/tests/integration_test.rs:15-96 | the sub-assembly at `/109` pushes the second, third and fourth records |
| Golden.SubInRootStep | pvs/tests/integration_test.rs:15-96 | the sub-assembly's instance in the root contributes records two to four |
| Golden.WasherInRootStep | pvs/tests/integration_test.rs:97-133 | the washer's instance in the root contributes the fifth record |
| Golden.GoldenOutput | pvs/tests/integration_test.rs:6-139 | `run` on the four-component catalog yields exactly the five expected records, in order |

## Left out

- `f32` arithmetic: matrix entries and read numbers are `real`, so rounding in the product and the reader is not modelled.
- `f32` special values: Rust's `f32::from_str` also accepts `NaN`, `inf` and `-0`, which have no `real` counterpart, so `parse` cannot return them; in particular `is_4x4_identity` on a matrix holding a NaN (always false there, since NaN is unequal to itself) is not modelled.
- Rust's `f32::from_str` is a parameter `parse` of every operation that reads numbers; only what the walk does with its answer is modelled.
- Reading the XML document (`parse_from`, the `quick_xml` deserialiser and the file I/O) and the `println!` in `run` are left out. `Run` takes the deserialised catalog.
- `material_override` is always `None` and `ColorMaterial` is not modelled. The `section_properties` part of the document is never read by the walk.
- The `cli`, `cpp-interop` and `connection-handler` crates are not part of this model.
- Pvs.FlattenNode: the unbounded recursion of `add_items` is bounded by a depth budget, which `CreateItems` sets to the catalog length. Running out of budget (`OutOfFuel`) stands for the stack overflow a cyclic catalog causes. Termination is proved only for catalogs whose instances point to earlier entries.
- Strings.ParseUsize: `usize` is taken to be 64 bits wide.
- Pvs.Run: on an empty catalog, `components.len() - 1` underflows and the process aborts. This is modelled as the aborting `EmptyCatalog` error.
- Golden.GoldenOutput: the test's input file `tests/pvs.xml` is not part of this model. The four-component catalog is rebuilt from the expected records. In the last record, the translation residue `1.7993725e-26` is an `f32` artefact. It is reproduced by giving that token the value the record shows divided by 1000; no `f32` rounding is modelled.
