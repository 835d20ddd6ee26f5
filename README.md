# auto_featurs feature-generation pipeline, modelled in Dafny

This project models the core of `auto_featurs`, a declarative feature-engineering
pipeline builder for tabular data. A user describes which derived columns to compute:
polynomials, logarithms, goniometric functions, scalers, arithmetic and comparison
crosses, datetime seasonality, text similarity and extraction, and aggregations, plain
or cumulative, filtered, grouped or rolling. The pipeline expands each description into
a deduplicated, type-checked list of transformer instances. Each instance produces one
output column for a lazy columnar engine.

The model follows the Python modules one Dafny module each:

- `column_specification.dfy` (`ColumnSpecification`): column types, roles, the
  specification triple, and the selector algebra with its matching semantics.
- `column_selectors.dfy` (`ColumnSelectors`): the predefined selectors.
- `schema.dfy` (`Schemas`) and `dataset.dfy` (`Datasets`): schema lookups and
  selection resolution. The dataset is a schema plus a queue of pending expressions.
- `utils.dfy` (`Utils`): filter-condition naming, order-preserving deduplication,
  valid-option filtering and timedelta formatting.
- `transformer_base.dfy`, the five transformer-family files, `transformers.dfy`,
  `over_wrapper.dfy` and `rolling_wrapper.dfy`: every transformer class as a datatype
  constructor. Each has its accepted input types, commutativity, return type and
  output name.
- `optimizer.dfy` (`Optimizers`): skip-self and commutative deduplication of column
  combinations, and deduplication of transformers against the schema.
- `validator.dfy` (`Validators`): arity and type checks of a transformer against its
  columns, and the time-window/index check.
- `pipeline.dfy` (`Pipelines`): `_build_transformers` (cartesian products, three
  nested loops), the rolling and grouping wrapper steps, and
  `_build_aggregated_transformers`.
- `pipeline_api.dfy` (`PipelineApi`): the `with_<operation>` front-ends, the layers,
  the shared auxiliary-column list (a class, because the Python list is shared between
  pipelines and extended in place), `with_new_layer` and `collect_plan`.
- `feature_selection.dfy` (`FeatureSelection`): the type checks and `select_features`.
  Its ranking sorts by statistic descending, then by name.
- `wrappers.dfy`, `strings.dfy` and `sequences.dfy`: `Option`/`Result`, the error
  kinds, decimal and lexicographic string helpers, and list helpers. The list helpers
  are `KeepFirstBy` deduplication, `itertools.product`, and a loop that may raise.

Code that runs step by step in the source is a method with loops, proved equal to a
specification function. Those methods cover `order_preserving_unique`, the optimizer's
passes, `format_timedelta`, `_check_valid_types`, `_build_transformers` and the
pipeline mutators. Properties are then proved about the function.

Where the code departs from what its own docstrings, type hints or tests suggest, the
model follows the code:

- `Schema.get_columns_from_selection` (src/auto_featurs/base/schema.py:50-59) resolves
  only a type, a name or a sequence of them. It rejects selectors and roles.
  `Schemas.GetColumnsFromSelection` keeps that.
- `_with_added_to_current_layer` deduplicates a batch only against the dataset's schema
  (pipeline.py:296), not against the current layer. Repeating a step within one layer
  therefore adds its transformers again: `PipelineApi.SameLayerKeepsRepeats`. Only
  after `with_new_layer` is a repeat a no-op: `PipelineApi.NewLayerRepeatAddsNothing`.
- The Over and Rolling wrappers are always commutative (over_wrapper.py:20-22,
  rolling_wrapper.py:25-27). They
  do not inherit commutativity from the inner transformer.
- Cumulative names are `exclusive_cum_count` and `inclusive_cum_…`
  (aggregating_transformers.py:25-26). Tests that expect `cum_count` do not match the
  code.
- `ColumnTypeSelector.exclude`, used at aggregating_transformers.py:196-197, is not
  defined in src/auto_featurs/base/column_specification.py. It is modelled as keeping
  the types not named.
- `parse_column_name` and `ColumnNameOrSpec`, imported at comparison_transformers.py:6,10
  and aggregating_transformers.py:10,17, are not defined in
  src/auto_featurs/base/column_specification.py or src/auto_featurs/utils/utils.py. They
  are modelled as taking a column's name: a string stays as it is, and a column
  specification gives its `name`. The pipeline always passes specifications, so the
  transformers that call it (aggregating_transformers.py:153, 190-191, 234-235, 267,
  comparison_transformers.py:15-16) hold the names of their input columns.
- `validate_transformer_against_input_columns` (validator.py:30-32) wraps `input_type()`
  in a tuple only when it is a `set`, then iterates it and calls `len()` on each entry.
  Every family except the seasonal one returns a `ColumnTypeSelector`, or a tuple of
  them, and that class supports neither, so as written the check raises TypeError. The
  validator's own tests (test_validator.py:12-66) declare selectors and expect the
  arity and type errors. The model reads a selector as its type set, as those tests
  intend, and keeps the code as written beside it: see "## Findings".
- `set(present_columns)` at optimizer.py:26, which pipeline.py:296 calls with the
  dataset's schema, is modelled as membership in the schema's column list.
- `Pipeline.__init__` uses `auxiliary_columns or []`. A non-empty auxiliary list is
  shared with the derived pipelines; an empty one is replaced by a fresh list.
- `with_arithmetic_aggregation` with QUANTILE calls the quantile class without a
  quantile. That is a TypeError, modelled as a construction failure.
- src/auto_featurs/transformers/base.py is not part of this model. The transformer
  interface (`output_column_specification` as name plus return type) is taken from
  core/transformers/base.py:35-40 and from its uses in the wrappers.

## Model

| member | source | states |
|---|---|---|
| ColumnSpecification.AnyType | src/auto_featurs/base/column_specification.py:20-22 | `ColumnType.ANY()` contains every column type |
| ColumnSpecification.AnyRole | src/auto_featurs/base/column_specification.py:67-69 | `ColumnRole.ANY()` contains every column role |
| ColumnSpecification.AnyTypeSelector | src/auto_featurs/base/column_specification.py:231-233 | the selector built from every type matches every column |
| ColumnSpecification.AnyRoleSelector | src/auto_featurs/base/column_specification.py:243-245 | the selector built from every role matches every column |
| ColumnSpecification.ExcludeTypes | src/auto_featurs/transformers/aggregating_transformers.py:196-197 | `ColumnTypeSelector.exclude(...)` keeps exactly the types not named |
| ColumnSpecification.AsSelector | src/auto_featurs/base/column_specification.py:57-58 | a type's or role's `as_selector()` matches exactly the columns of that type or role; a selector is kept as it is |
| ColumnSpecification.TypeAnd | src/auto_featurs/base/column_specification.py:24-30 | a type `&` a role or selector matches the columns satisfying both; a type `&` a type fails |
| ColumnSpecification.TypeOr | src/auto_featurs/base/column_specification.py:44-52 | two types give one flat type selector of both; any `|` matches the columns satisfying either side |
| ColumnSpecification.TypeNot | src/auto_featurs/base/column_specification.py:54-55 | `~type` matches exactly the columns of another type |
| ColumnSpecification.RoleAnd | src/auto_featurs/base/column_specification.py:71-77 | a role `&` a type or selector matches the columns satisfying both; a role `&` a role fails |
| ColumnSpecification.RoleOr | src/auto_featurs/base/column_specification.py:91-99 | two roles give one flat role selector of both; any `|` matches the columns satisfying either side |
| ColumnSpecification.RoleNot | src/auto_featurs/base/column_specification.py:101-102 | `~role` matches exactly the columns of another role |
| ColumnSpecification.SelectorAnd | src/auto_featurs/base/column_specification.py:140-146 | a selector `&` an operand is the structural `_And` and matches the columns both accept |
| ColumnSpecification.SelectorOr | src/auto_featurs/base/column_specification.py:148-154 | a selector `|` an operand is the structural `_Or` and matches the columns either accepts |
| ColumnSpecification.SelectorNot | src/auto_featurs/base/column_specification.py:157-158 | `~selector` matches exactly the columns the selector rejects |
| ColumnSpecification.NumericOrBooleanFeatures | src/auto_featurs/base/column_specification.py:165-188 | `(NUMERIC \| BOOLEAN) & ~LABEL` selects the non-label numeric and boolean columns |
| ColumnSpecification.NamedConstructors | src/auto_featurs/base/column_specification.py:114-136 | each named constructor builds the specification of its own type with the given name and role, and the role defaults to feature |
| ColumnSpecification.SpecEquality | src/auto_featurs/base/column_specification.py:108-112 | two specifications (a frozen dataclass) are equal exactly when name, type and role all agree |
| ColumnSpecification.SpecCreationExample | src/auto_featurs/base/tests/test_column_specification.py:10-11 | `numeric('a', LABEL)` equals the explicit specification; without a role it is a feature, and the two differ |
| ColumnSelectors.NameContainsSelector | src/auto_featurs/column_selectors.py:7-8 | matches exactly the columns whose name contains the value (`NameContains.matches`, column_specification.py:195-196) |
| ColumnSelectors.NameStartsWithSelector | src/auto_featurs/column_selectors.py:11-12 | matches exactly the columns whose name starts with the value |
| ColumnSelectors.NameEndsWithSelector | src/auto_featurs/column_selectors.py:15-16 | matches exactly the columns whose name ends with the value |
| ColumnSelectors.NameMatchesSelector | src/auto_featurs/column_selectors.py:19-20 | matches exactly the columns in whose name the regular-expression search succeeds; flags default to 0 |
| ColumnSelectors.NameSelectorsIgnoreTypeAndRole | src/auto_featurs/base/column_specification.py:191-221 | a name selector gives the same answer on two columns with the same name, whatever their type and role |
| Schemas.Add | src/auto_featurs/base/schema.py:20-23 | the sum of two schemas holds the left schema's columns followed by the right's |
| Schemas.ColumnNames | src/auto_featurs/base/schema.py:29-31 | one name per column, the i-th being the i-th column's name |
| Schemas.NumColumns | src/auto_featurs/base/schema.py:33-35 | the number of columns equals the number of column names |
| Schemas.FirstLabel | src/auto_featurs/base/schema.py:37-42 | `label_column` returns the first column with the LABEL role, and fails exactly when there is none |
| Schemas.FirstNamed | src/auto_featurs/base/schema.py:44-48 | `get_column_by_name` returns the first column with that name, and fails with the unknown name exactly when no column has it |
| Schemas.AddLookupPrefersLeft | src/auto_featurs/base/schema.py:20-23 | looking a name up in a sum of schemas finds it in the left schema when it is there, otherwise in the right |
| Schemas.GetColumnsOfType | src/auto_featurs/base/schema.py:61-62 | `get_columns_of_type` returns columns of that type only, no more of them than the schema has |
| Schemas.ColumnsOfTypeMembers | src/auto_featurs/base/schema.py:61-62 | the columns returned are exactly the schema's columns of that type |
| Schemas.ColumnsOfTypeInOrder | src/auto_featurs/base/schema.py:61-62 | the columns of a type keep their schema order |
| Schemas.FlattenUnique | src/auto_featurs/base/schema.py:56-57 | a sequence selection fails with the first failing item's error; otherwise it yields exactly the columns some item selected, each once, in order of first occurrence across the items (`unique(flatten(...))`) |
| Schemas.GetColumnsFromSelection | src/auto_featurs/base/schema.py:50-59 | a type yields the schema's columns of that type in schema order; a name yields that one column or fails with the unknown name; a sequence yields columns of the schema without repeats; a role or selector is refused |
| Schemas.ItemResults | src/auto_featurs/base/schema.py:57 | one resolution per item of a sequence, in item order, each resolving only to columns of the schema |
| Schemas.SequenceSelection | src/auto_featurs/base/schema.py:56-57 | a sequence selection is the first-occurrence union of its items' resolutions, and a column is in it exactly when some item selected it |
| Schemas.FlattenUniqueMembers | src/auto_featurs/base/schema.py:57 | after flattening and deduplicating, a column is present exactly when some successful part contains it |
| Schemas.TypeSequenceExample | src/auto_featurs/base/schema.py:56-62 | selecting numeric then ordinal from a schema (numeric a, ordinal b, numeric c) yields a, c, b |
| Schemas.FlattenExample | src/auto_featurs/base/schema.py:57 | flattening keeps every part's columns, in order, repeats included |
| Schemas.CollectExample | src/auto_featurs/base/schema.py:57 | resolving three items that all succeed yields their three results in order |
| Schemas.UniqueExample | src/auto_featurs/utils/utils.py:28-35 | removing repeats from [c, a, c, b] keeps the first occurrences: [c, a, b] |
| Schemas.ExampleColumnsOfType | src/auto_featurs/base/schema.py:61-62 | the numeric columns of [A numeric, B boolean, C numeric] are A then C |
| Schemas.ExampleColumnByName | src/auto_featurs/base/schema.py:44-48 | names B and C are found at their own positions |
| Schemas.SelectionExample | src/auto_featurs/base/schema.py:56-57 | selecting C, the numeric columns, then B gives C, A, B: each column once, first come first |
| Schemas.UnknownNameFails | src/auto_featurs/base/schema.py:44-48 | a sequence selection starting with a name no column carries fails |
| Utils.FilteringConditionToString | src/auto_featurs/utils/utils.py:22-25 | the name suffix is empty exactly for a missing or literal-true condition, and `_where_` followed by the condition's output name otherwise |
| Utils.DefaultTrueKeepsSuffix | src/auto_featurs/utils/utils.py:18-25 | defaulting a missing condition to `True` leaves the name suffix unchanged |
| Utils.OrderPreservingUnique | src/auto_featurs/utils/utils.py:28-35 | the loop with a `seen` set computes the first occurrences of the values, in order |
| Utils.UniqueProperties | src/auto_featurs/utils/utils.py:28-35 | the result has no repeats, keeps every input value, is in input order, and is unchanged by a second pass |
| Utils.UniquePrefix | src/auto_featurs/utils/utils.py:28-35 | the unique values of a prefix of the input are a prefix of the unique values of the whole |
| Utils.GetNamesFromColumnSpecs | src/auto_featurs/utils/utils.py:38-39 | one name per entry, in order: a specification's name, or the string itself |
| Utils.GetValidParamOptions | src/auto_featurs/utils/utils.py:42-45 | every kept option is truthy; the flag holds exactly when every option is truthy, and then nothing was dropped; nothing is kept exactly when no option is truthy |
| Utils.ValidOptionsMembers | src/auto_featurs/utils/utils.py:42-45 | the kept options are exactly the truthy ones |
| Utils.DecomposeReconstructs | src/auto_featurs/utils/utils.py:49-56 | the `divmod` cascade's components add back up to the duration and each lies below the next larger unit |
| Utils.RenderAppend | src/auto_featurs/utils/utils.py:58-70 | appending one more component adds its part to the end of the text |
| Utils.AppendIfNonZero | src/auto_featurs/utils/utils.py:59-70 | one `if n: result += f'{n}{suffix}'` step appends the part only for a non-zero component |
| Utils.FormatTimedelta | src/auto_featurs/utils/utils.py:48-72 | the method's text equals the rendering of the cascade's components, `0s` when all are zero |
| Utils.NatToStringLeadingDigit | src/auto_featurs/utils/utils.py:60-70 | the decimal text of a natural number starts with `0` only for zero |
| Utils.RenderLeading | src/auto_featurs/utils/utils.py:58-72 | the rendering is empty exactly when every component is zero, and otherwise never starts with `0` |
| Utils.TimedeltaTextZero | src/auto_featurs/utils/utils.py:72 | the text is `0s` exactly when every component is zero |
| Utils.DecomposeZero | src/auto_featurs/utils/utils.py:49-56 | every component is zero exactly for a zero duration |
| Utils.TimedeltaZero | src/auto_featurs/utils/utils.py:48-72 | a duration prints as `0s` exactly when it is zero |
| Utils.TimedeltaMonthExample | src/auto_featurs/utils/tests/test_utils.py:36 | 37 days and 5 hours print as `1mo7d5h` |
| Utils.TimedeltaDayExample | src/auto_featurs/utils/utils.py:48-72 | 2 days and 1 hour print as `2d1h`, the rolling-window name part |
| Datasets.NumColumns | src/auto_featurs/dataset/dataset.py:40-42 | the number of schema columns, which is also the number of column names |
| Datasets.GetColumnsFromSelection | src/auto_featurs/dataset/dataset.py:47-48 | delegates to the schema case by case: a type yields its columns in schema order, a name its one column or the unknown-name error, a sequence the first-occurrence union of its items' columns, a role or selector the unexpected-selection error |
| Datasets.GetCombinationsFromSelections | src/auto_featurs/dataset/dataset.py:44-45 | one resolved list per selection, in argument order, succeeding exactly when every selection resolves; otherwise the first failure's error |
| Datasets.GetColumnsOfType | src/auto_featurs/dataset/dataset.py:50-51 | exactly the schema's columns of that type |
| Datasets.GetColumnByName | src/auto_featurs/dataset/dataset.py:53-54 | a schema column of that name, failing with the unknown name exactly when none has it |
| Datasets.GetLabelColumn | src/auto_featurs/dataset/dataset.py:56-57 | a schema column with the LABEL role, failing exactly when there is none |
| Datasets.WithColumns | src/auto_featurs/dataset/dataset.py:59-60 | queues one more batch of expressions on the frame and keeps the schema |
| Datasets.WithSchema | src/auto_featurs/dataset/dataset.py:62-63 | keeps the frame and appends the new columns to the schema |
| Datasets.WithSchemaKeepsLookups | src/auto_featurs/dataset/dataset.py:62-63 | extending the schema never changes what an existing name resolves to, and adds exactly the new columns to the count |
| Datasets.SelectionSequenceExample | src/auto_featurs/dataset/tests/test_dataset.py:52-55 | the dataset test's sequence `[NUMERIC, ORDINAL]` over columns a (numeric), b (ordinal), c (numeric) yields a, c, b |
| Wrappers.CollectResults | src/auto_featurs/dataset/dataset.py:44-45 | a comprehension whose elements may raise yields every value, in order, exactly when none raises; otherwise the first error |
| Wrappers.FlatMapResultsSpec | src/auto_featurs/pipeline/pipeline.py:410-419 | the nested build loop succeeds exactly when every step does, and otherwise raises the first failing step's error |
| Wrappers.FlatMapResultsAppend | src/auto_featurs/pipeline/pipeline.py:410-419 | one more outer iteration appends its list, or its error becomes the result |
| Wrappers.FlatMapResultsFailurePersists | src/auto_featurs/pipeline/pipeline.py:410-419 | once an iteration has raised, later iterations change nothing |
| Wrappers.FlatMapResultsUniformLength | src/auto_featurs/pipeline/pipeline.py:410-419 | when every iteration appends the same number of items, the total is that number times the iterations |
| Wrappers.FlatMapResultsSingle | src/auto_featurs/pipeline/pipeline.py:410-419 | a loop over one item yields that item's list |
| Wrappers.FlatMapResultsSingletons | src/auto_featurs/pipeline/pipeline.py:410-419 | when every iteration appends one item, the i-th item comes from the i-th iteration |
| Wrappers.FlatMapResultsStep | src/auto_featurs/pipeline/pipeline.py:410-419 | one loop iteration: a failure decides the whole, a success extends what was built so far |
| Wrappers.FlatMapResultsMembers | src/auto_featurs/pipeline/pipeline.py:410-419 | every built item comes from an iteration that succeeded |
| Sequences.KeepFirstBy | src/auto_featurs/utils/utils.py:28-35 | the kept elements have distinct keys, none of them already seen |
| Sequences.KeepFirstBySubsequence | src/auto_featurs/utils/utils.py:28-35 | the kept elements are a subsequence of the input |
| Sequences.KeepFirstByComplete | src/auto_featurs/utils/utils.py:28-35 | every input's key was seen already or is the key of a kept element |
| Sequences.KeepFirstByIdentity | src/auto_featurs/utils/utils.py:28-35 | an input whose keys are distinct and unseen is kept whole |
| Sequences.KeepFirstByAppend | src/auto_featurs/utils/utils.py:31-34 | one more element is kept exactly when its key is new |
| Sequences.KeepFirstByAllSeen | src/auto_featurs/utils/utils.py:31-34 | when every key was seen already, nothing is kept |
| Sequences.KeepFirstByPrefix | src/auto_featurs/utils/utils.py:28-35 | deduplicating a prefix gives a prefix of the deduplicated whole |
| Sequences.Flatten | src/auto_featurs/base/schema.py:57 | the flattened list holds exactly the parts' elements |
| Sequences.PrependEach | src/auto_featurs/pipeline/pipeline.py:406 | one combination per head and tail |
| Sequences.Product | src/auto_featurs/pipeline/pipeline.py:406-408 | `itertools.product` has as many combinations as the product of the lists' lengths |
| Sequences.ProductMembers | src/auto_featurs/pipeline/pipeline.py:406-408 | the product holds exactly the sequences that pick one element of each list, in order |
| Sequences.PrependEachAt | src/auto_featurs/pipeline/pipeline.py:406 | head-major order: head i with tail j sits at position i times the number of tails plus j |
| Sequences.ProductOneAt | src/auto_featurs/pipeline/pipeline.py:406 | the product of one list holds its elements as one-element combinations, in order |
| Sequences.ProductPairLength | src/auto_featurs/pipeline/pipeline.py:406 | the product of two lists has the product of their lengths as length |
| Sequences.ProductPairAt | src/auto_featurs/pipeline/pipeline.py:406 | in the product of two lists, the pair (i, j) sits at i times the second length plus j |
| Optimizers.Ordinal | src/auto_featurs/pipeline/optimizer.py:9-12 | the integer value of a level: NONE is 0, DEDUPLICATE_COMMUTATIVE is 2, none above 2 |
| Optimizers.DeduplicatedAgainstLayers | src/auto_featurs/pipeline/optimizer.py:23-34 | kept transformers have pairwise distinct output columns, none already present, and every dropped one's output is present or kept |
| Optimizers.DeduplicateTransformersAgainstLayers | src/auto_featurs/pipeline/optimizer.py:23-34 | the loop with a growing set of present columns computes exactly the kept transformers |
| Optimizers.DeduplicatedAgainstLayersSubsequence | src/auto_featurs/pipeline/optimizer.py:28-32 | the kept transformers keep batch order |
| Optimizers.PresentBatchAddsNothing | src/auto_featurs/pipeline/optimizer.py:28-32 | a batch whose outputs are all present adds nothing |
| Optimizers.RepeatedBatchAddsNothing | src/auto_featurs/pipeline/optimizer.py:23-34 | once a batch's kept outputs are present, the same batch adds nothing |
| Optimizers.ElementsAppend | src/auto_featurs/pipeline/optimizer.py:54 | the set of a combination's columns grows by the appended column |
| Optimizers.NoRepeatsIffDistinct | src/auto_featurs/pipeline/optimizer.py:54 | `len(set(c)) == len(c)` holds exactly when no column occurs twice |
| Optimizers.SkippedSelf | src/auto_featurs/pipeline/optimizer.py:51-55 | every kept combination has pairwise distinct columns, and none is added |
| Optimizers.SkippedSelfMembers | src/auto_featurs/pipeline/optimizer.py:51-55 | the combinations kept are exactly those with pairwise distinct columns |
| Optimizers.SkippedSelfSubsequence | src/auto_featurs/pipeline/optimizer.py:53-55 | the kept combinations keep their order |
| Optimizers.SkipSelf | src/auto_featurs/pipeline/optimizer.py:51-55 | the generator's loop yields exactly the combinations without a repeated column |
| Optimizers.InsertByName | src/auto_featurs/pipeline/optimizer.py:46 | inserting a column into a name-sorted combination keeps it sorted and adds exactly that column |
| Optimizers.SortByName | src/auto_featurs/pipeline/optimizer.py:46 | `sorted(c, key=name)` is sorted by name and a permutation of the combination |
| Optimizers.SortByNameStable | src/auto_featurs/pipeline/optimizer.py:46 | the sort is stable: for every name, the columns carrying it appear in the same relative order before and after sorting |
| Optimizers.PairCanonicalForm | src/auto_featurs/pipeline/optimizer.py:46-48 | two columns with different names sort to the same pair whichever way round they come |
| Optimizers.DeduplicatedCommutative | src/auto_featurs/pipeline/optimizer.py:36-49 | a non-commutative class keeps every combination; a commutative one keeps one combination per sorted form, and loses no sorted form |
| Optimizers.DeduplicatedCommutativeSubsequence | src/auto_featurs/pipeline/optimizer.py:41-49 | the kept combinations keep their order |
| Optimizers.DeduplicateInputColumnsForTransformer | src/auto_featurs/pipeline/optimizer.py:36-49 | the generator's loop with a set of sorted forms computes exactly the kept combinations |
| Optimizers.OptimizeInputColumns | src/auto_featurs/pipeline/optimizer.py:57-63 | the passes run as the level enables them: skip-self from SKIP_SELF, the commutative pass from DEDUPLICATE_COMMUTATIVE |
| Optimizers.OptimizedIsSubsequence | src/auto_featurs/pipeline/optimizer.py:57-63 | every level keeps a subsequence of the combinations, and NONE keeps them all |
| Optimizers.OptimizedSkipsSelf | src/auto_featurs/pipeline/optimizer.py:57-63 | from SKIP_SELF on, no kept combination uses a column twice |
| Optimizers.NonCommutativeUnaffected | src/auto_featurs/pipeline/optimizer.py:41-42 | a non-commutative class gets the same combinations at the top level as at SKIP_SELF |
| Optimizers.PairNoRepeats | src/auto_featurs/pipeline/optimizer.py:54 | a pair has no repeated column exactly when its two columns differ |
| Optimizers.SkipSelfExample | src/auto_featurs/pipeline/optimizer.py:51-55 | of the four pairs over two columns, skip-self keeps (a, b) and (b, a) |
| Optimizers.CommutativeExample | src/auto_featurs/pipeline/optimizer.py:44-49 | for a commutative class, (b, a) after (a, b) is dropped |
| Optimizers.OptimizerExample | src/auto_featurs/pipeline/optimizer.py:57-63 | NONE keeps all four pairs, SKIP_SELF the two mixed ones, and DEDUPLICATE_COMMUTATIVE only (a, b) for a commutative class |
| Optimizers.LevelsAfterSkip | src/auto_featurs/pipeline/optimizer.py:57-63 | once skip-self leaves (a, b) and (b, a), the commutative pass keeps only (a, b) for a commutative class and both otherwise |
| Strings.LexLessIrreflexive | src/auto_featurs/pipeline/optimizer.py:46 | no name sorts before itself |
| Strings.LexLessTransitive | src/auto_featurs/pipeline/optimizer.py:46 | name order is transitive |
| Strings.LexLessTotal | src/auto_featurs/pipeline/optimizer.py:46 | of two different names exactly one sorts first |
| Validators.ValidateTimeWindowIndexColumn | src/auto_featurs/pipeline/validator.py:19-24 | fails exactly when a first window that is not None comes without an index, or the index is not DATETIME; each case has its own error |
| Validators.ExpectedPositions | src/auto_featurs/pipeline/validator.py:30-32 | a single type set is one position; positions with no accepted type are dropped; nothing else is dropped or reordered |
| Validators.FirstTypeMismatch | src/auto_featurs/pipeline/validator.py:41-47 | the first position whose column has a type the position does not accept, or none when all are accepted |
| Validators.RaiseOrWarn | src/auto_featurs/pipeline/validator.py:51-55 | the raising validator fails with the message's error; the other one reports false |
| Validators.ValidateTransformer | src/auto_featurs/pipeline/validator.py:26-49 | wrappers pass; otherwise the check passes exactly when there is one column per position and each has an accepted type; it fails only for the raising validator, and the other one reports whether the check passed |
| Validators.ValidationErrors | src/auto_featurs/pipeline/validator.py:30-49 | a failure with the wrong number of columns is the arity error (expected, received); with the right number it is the type error of the first position whose column's type is not accepted |
| Validators.SinglePositionValidation | src/auto_featurs/pipeline/validator.py:30-47 | a transformer with one typed position, given one column, passes exactly when the column's type is accepted, and otherwise raises or reports the type error at position 0 |
| Validators.TimeWindowExamples | src/auto_featurs/pipeline/tests/test_validator.py:37-47 | a window without an index raises; with a DATETIME index it passes; no windows, or a None first window, pass |
| Validators.IndexMustBeDatetime | src/auto_featurs/pipeline/validator.py:23-24 | a non-DATETIME index is refused whatever the windows are |
| Validators.CountArity | src/auto_featurs/pipeline/validator.py:30-39 | Count declares no typed position, so it accepts no columns and refuses one |
| Validators.ArithmeticPositions | src/auto_featurs/pipeline/validator.py:30-32 | an arithmetic transformer has two NUMERIC-or-BOOLEAN positions |
| Validators.SinPositions | src/auto_featurs/pipeline/validator.py:30-32 | a sine has one NUMERIC position |
| Validators.ArityExample | src/auto_featurs/pipeline/tests/test_validator.py:49-54 | a two-position transformer given one column raises the arity error (expected 2, received 1) |
| Validators.TypeExamples | src/auto_featurs/pipeline/tests/test_validator.py:56-66 | a NUMERIC-only position given an ORDINAL column raises a type error at position 0, or reports false without raising; a NUMERIC column passes |
| Validators.SinValidation | src/auto_featurs/pipeline/tests/test_validator.py:56-66 | a sine passes a NUMERIC column and raises, or reports false, with the type error at position 0 for any other |
| Validators.ValidateTransformerAsWritten | src/auto_featurs/pipeline/validator.py:26-32 | as written, a transformer that is not a wrapper and declares a selector raises TypeError, whatever the validator's mode; in every other case the result is that of the selector-as-type-set reading |
| Validators.ValidationNeverSelectorError | src/auto_featurs/pipeline/validator.py:30-49 | reading selectors as type sets, validation only ever fails with the arity or the type error |
| Validators.OnlySeasonalPassAsWritten | src/auto_featurs/pipeline/validator.py:26-32 | as written, a transformer that is not a wrapper passes only when it is seasonal, and a seasonal one gets the same result either way |
| Validators.CountRaisesAsWritten | src/auto_featurs/transformers/aggregating_transformers.py:38-39 | a count on no columns raises TypeError as written, where the type-set reading accepts it |
| Validators.SinRaisesAsWritten | src/auto_featurs/pipeline/tests/test_validator.py:63-66 | a sine of a NUMERIC column raises TypeError as written, where the type-set reading accepts it, as the test expects |
| Validators.SeasonalPassesAsWritten | src/auto_featurs/transformers/datetime_transformers.py:15-16 | an hour of day of a DATETIME column passes as written, since its input type is a real set |
| TransformerBase.OutputSpecification | core/transformers/base.py:35-40 | a transformer's output column is its output name with its return type and the default role FEATURE |
| TransformerBase.OutputSpecificationInjective | core/transformers/base.py:35-40 | two outputs are the same column exactly when their names and return types agree |
| Transformers.OutputSpec | src/auto_featurs/transformers/over_wrapper.py:24-25 | every transformer's output column carries its name, its return type and role FEATURE, which is what the wrappers read back as `output_column_specification` |
| Transformers.OutputSpecAgrees | src/auto_featurs/transformers/rolling_wrapper.py:29-30 | the common interface gives the same output column as each transformer family's own definition |
| NumericTransformers.OutputSpec | src/auto_featurs/transformers/numeric_transformers.py:24-25 | every numeric transformer produces a NUMERIC feature column under its name |
| NumericTransformers.SingleColumnKinds | src/auto_featurs/transformers/numeric_transformers.py:13-25 | polynomial, log, sin, cos and the scalers accept a NUMERIC column, return NUMERIC and are commutative |
| NumericTransformers.ArithmeticKinds | src/auto_featurs/transformers/numeric_transformers.py:97-154 | the arithmetic transformers take two NUMERIC-or-BOOLEAN columns and return NUMERIC; exactly add and multiply are commutative |
| NumericTransformers.PolynomialNamesDistinct | src/auto_featurs/transformers/numeric_transformers.py:36-37 | two degrees of one column give different `_pow_<degree>` names |
| NumericTransformers.PolynomialNests | src/auto_featurs/transformers/numeric_transformers.py:33-37 | a power of a power reads the first output and stacks the suffixes, `x_pow_2_pow_2` |
| NumericTransformers.LogNames | src/auto_featurs/transformers/numeric_transformers.py:48-50 | base e is named `_ln`, any other base `_log<base>` |
| NumericTransformers.SwappedArithmeticNamesDiffer | src/auto_featurs/transformers/numeric_transformers.py:117-154 | swapping two distinct same-length operands changes the `left_op_right` name for all four operations |
| NumericTransformers.ArithmeticNameCollision | src/auto_featurs/transformers/numeric_transformers.py:117-118 | the naming is not injective: `x + x_add_x` and `x_add_x + x` produce the same output column |
| NumericTransformers.NameReadsColumns | src/auto_featurs/transformers/numeric_transformers.py:36-154 | a single-column output name starts with the input column and an underscore; an arithmetic name starts with the left column and ends with the right one |
| NumericTransformers.RegistriesOneToOne | src/auto_featurs/transformers/numeric_transformers.py:69-161 | the `Goniometric`, `Scaling` and `ArithmeticOperation` enumerations name distinct classes, the last only arithmetic ones |
| NumericTransformers.ArithmeticRegistryOnto | src/auto_featurs/transformers/numeric_transformers.py:157-161 | every arithmetic class is named by some `ArithmeticOperation` member |
| ComparisonTransformers.OutputSpec | src/auto_featurs/transformers/comparison_transformers.py:21-22 | every comparison produces a BOOLEAN feature column under its name |
| ComparisonTransformers.ComparisonAcceptsAnyTypes | src/auto_featurs/transformers/comparison_transformers.py:18-22 | both input positions accept every column type and the result is BOOLEAN |
| ComparisonTransformers.ComparisonNames | src/auto_featurs/transformers/comparison_transformers.py:33-58 | the outputs are named `left_equal_right`, `left_greater_than_right`, `left_greater_or_equal_right` |
| ComparisonTransformers.SwappedComparisonNamesDiffer | src/auto_featurs/transformers/comparison_transformers.py:33-58 | swapping two distinct same-length operands swaps them in the name, so the name changes |
| ComparisonTransformers.NameReadsColumns | src/auto_featurs/transformers/comparison_transformers.py:33-58 | a comparison's name starts with the left column and an underscore and ends with the right column |
| ComparisonTransformers.ComparisonsRegistry | src/auto_featurs/transformers/comparison_transformers.py:61-64 | the `Comparisons` enumeration names each comparison class exactly once |
| DatetimeTransformers.OutputSpec | src/auto_featurs/transformers/datetime_transformers.py:22-23 | every seasonal transformer produces an ORDINAL feature column under its name |
| DatetimeTransformers.SeasonalMetadata | src/auto_featurs/transformers/datetime_transformers.py:15-23 | a seasonal transformer accepts exactly DATETIME columns, returns ORDINAL and is commutative |
| DatetimeTransformers.SeasonalNamesDistinct | src/auto_featurs/transformers/datetime_transformers.py:30-47 | the outputs are `<col>_hour_of_day`, `<col>_day_of_week`, `<col>_month_of_year`, all different |
| DatetimeTransformers.NameReadsColumn | src/auto_featurs/transformers/datetime_transformers.py:30-47 | a seasonal feature's name is the column, an underscore and a non-empty suffix |
| DatetimeTransformers.SeasonalRegistry | src/auto_featurs/transformers/datetime_transformers.py:50-53 | the `SeasonalOperation` enumeration names each seasonal class exactly once |
| TextTransformers.Lower | src/auto_featurs/transformers/text_transformers.py:121 | `str.lower()` as applied here, only to the ASCII names of `CommonPatterns` members: it keeps the length and maps each upper-case ASCII letter to its lower-case form |
| TextTransformers.ValueInjective | src/auto_featurs/transformers/text_transformers.py:138-159 | no two `CommonPatterns` members share a regex, so a value identifies its member |
| TextTransformers.FirstWithValue | src/auto_featurs/transformers/text_transformers.py:129-131 | the scan over the members finds one whose value is the string exactly when one exists |
| TextTransformers.ResolveMember | src/auto_featurs/transformers/text_transformers.py:118-122 | a member resolves to its regex and its lower-cased name |
| TextTransformers.ResolveTuple | src/auto_featurs/transformers/text_transformers.py:124-126 | a `(regex, name)` tuple resolves verbatim |
| TextTransformers.ResolveMemberValue | src/auto_featurs/transformers/text_transformers.py:128-131 | a string equal to a member's regex resolves exactly as that member does |
| TextTransformers.ResolveOtherString | src/auto_featurs/transformers/text_transformers.py:133 | any other string is both the regex and the human-readable name |
| TextTransformers.DigitsExample | src/auto_featurs/transformers/text_transformers.py:128-131 | the raw string `\d` resolves to the name `digits` |
| TextTransformers.NewCountMatches | src/auto_featurs/transformers/text_transformers.py:101-105 | the count-matches constructor keeps the column and stores the resolved regex and name |
| TextTransformers.OutputSpec | src/auto_featurs/transformers/text_transformers.py:23-114 | every text transformer produces a feature column under its name with its return type |
| TextTransformers.TextMetadata | src/auto_featurs/transformers/text_transformers.py:20-108 | similarity takes two TEXT positions and returns NUMERIC; the extractions take one TEXT column; only the email domain is NOMINAL; every text class is commutative |
| TextTransformers.CountDigitsExample | src/auto_featurs/transformers/text_transformers.py:113-114 | counting `DIGITS` in `text` gives the NUMERIC column `text_count_digits` |
| TextTransformers.NameReadsColumns | src/auto_featurs/transformers/text_transformers.py:26-114 | a single-column text feature is named after its column and an underscore; a text similarity starts with the left column and ends with the right one |
| AggregatingTransformers.CumulativeText | src/auto_featurs/transformers/aggregating_transformers.py:25-26 | `str(CumulativeOptions)` is empty exactly for NONE, and otherwise the mode's value followed by `_cum_` |
| AggregatingTransformers.CumulativeTextInjective | src/auto_featurs/transformers/aggregating_transformers.py:20-26 | the three modes give three different name fragments |
| AggregatingTransformers.CategoricalTypes | src/auto_featurs/transformers/aggregating_transformers.py:194-198 | the entropy and PMI positions accept every type but NUMERIC and DATETIME |
| AggregatingTransformers.OutputSpec | src/auto_featurs/transformers/aggregating_transformers.py:45-282 | every aggregation produces a feature column under its name with its return type |
| AggregatingTransformers.CompositesShareArguments | src/auto_featurs/transformers/aggregating_transformers.py:236-375 | PMI, mean, std and z-score build their inner count, sum, mean and std from their own column, cumulative mode and raw condition |
| AggregatingTransformers.CountMetadata | src/auto_featurs/transformers/aggregating_transformers.py:38-68 | a count takes no input column, returns NUMERIC and is named mode text + `count` + condition suffix, the condition kept as given |
| AggregatingTransformers.CountNameExamples | src/auto_featurs/transformers/aggregating_transformers.py:66-68 | a count is named `count_where_X`, `count` or `inclusive_cum_count` for the corresponding arguments |
| AggregatingTransformers.ReturnTypeFollowsInput | src/auto_featurs/transformers/aggregating_transformers.py:77-130 | lagged, first-value and mode accept any column and return that column's type |
| AggregatingTransformers.LaggedNamesDistinct | src/auto_featurs/transformers/aggregating_transformers.py:90-91 | two different lags of one column get different `_lagged_<lag>` names |
| AggregatingTransformers.ArithmeticAggregationMetadata | src/auto_featurs/transformers/aggregating_transformers.py:271-282 | the arithmetic aggregations read one NUMERIC-or-BOOLEAN column, return NUMERIC, are commutative and are named `<col>_<mode text><aggregation><condition suffix>` |
| AggregatingTransformers.MedianIsHalfQuantile | src/auto_featurs/transformers/aggregating_transformers.py:323-330 | a median is the 0.5 quantile, down to its output column, and is named `median` |
| AggregatingTransformers.Truncate | src/auto_featurs/transformers/aggregating_transformers.py:325 | Python's `int` on a number truncates toward zero: the result is the integer within one of it on the side of zero |
| AggregatingTransformers.QuantileWord | src/auto_featurs/transformers/aggregating_transformers.py:321-325 | a quantile other than 0.5 is named `quantile_` and its truncated percentage |
| AggregatingTransformers.AggregationWords | src/auto_featurs/transformers/aggregating_transformers.py:286-391 | the aggregation word is `median` exactly for the median and the 0.5 quantile; different arithmetic aggregations share a word only there; two other quantiles share a word exactly when their truncated percentages agree |
| AggregatingTransformers.NameStartsWithColumns | src/auto_featurs/transformers/aggregating_transformers.py:66-282 | every aggregating output name starts with its input column (or both, for PMI and entropy) and an underscore, and a count with its cumulative prefix and `count` |
| AggregatingTransformers.QuantileNameExample | src/auto_featurs/transformers/aggregating_transformers.py:325 | the 0.25 quantile is named `quantile_25` (`int` truncates toward zero) |
| AggregatingTransformers.ModeNameExample | src/auto_featurs/transformers/aggregating_transformers.py:146-148 | an exclusive cumulative mode with a condition is named `x_exclusive_cum_mode_where_X` |
| AggregatingTransformers.FirstValueNameExample | src/auto_featurs/transformers/aggregating_transformers.py:112-180 | the first value with a condition is `x_first_value_where_X`; the unconditional number of unique values is `x_num_unique` (the defaulted `True` adds nothing) |
| AggregatingTransformers.EntropyAndPmiNameExample | src/auto_featurs/transformers/aggregating_transformers.py:221-262 | entropy is named `<target>_by_<source>_entropy`, PMI `<a>_<b>_<mode text>pmi` |
| AggregatingTransformers.CommutativityAndTypes | src/auto_featurs/transformers/aggregating_transformers.py:41-279 | every aggregation but entity entropy is commutative; all but lagged, first-value and mode return NUMERIC |
| AggregatingTransformers.ArithmeticAggregationKind | src/auto_featurs/transformers/aggregating_transformers.py:385-391 | each `ArithmeticAggregations` member names an arithmetic aggregation class |
| AggregatingTransformers.ArithmeticAggregationsRegistry | src/auto_featurs/transformers/aggregating_transformers.py:385-391 | the enumeration names each arithmetic aggregation class exactly once |
| OverWrappers.NewOver | src/auto_featurs/transformers/over_wrapper.py:13-15 | the constructor keeps the inner transformer and turns each grouping column into its name, in order |
| OverWrappers.OverDelegates | src/auto_featurs/transformers/over_wrapper.py:17-33 | the wrapper accepts the inner transformer's input types, returns its type, is commutative and is named `<inner>_over_<g1>_and_<g2>…` |
| OverWrappers.OverKeepsDistinct | src/auto_featurs/transformers/over_wrapper.py:31-33 | two inner transformers with different names stay different columns under the same grouping |
| OverWrappers.OverCountExample | src/auto_featurs/transformers/over_wrapper.py:31-33 | a count over `G1` and `G2` is named `count_over_G1_and_G2` |
| RollingWrappers.NewRolling | src/auto_featurs/transformers/rolling_wrapper.py:14-20 | the constructor succeeds exactly for a DATETIME index column and otherwise raises naming that column |
| RollingWrappers.RollingDelegates | src/auto_featurs/transformers/rolling_wrapper.py:22-38 | the wrapper accepts the inner transformer's input types, returns its type, is commutative and is named `<inner>_in_the_last_<window>`, a string window used verbatim |
| RollingWrappers.RollingDeltaExample | src/auto_featurs/transformers/rolling_wrapper.py:36-38 | a window of two days and one hour names the feature as the string `2d1h` does |
| AggregatingTransformers.UnfilteredFirstValueName | src/auto_featurs/transformers/aggregating_transformers.py:95-113 | the first value without a condition is named `<column>_first_value` |
| RollingWrappers.NestingOrder | src/auto_featurs/transformers/rolling_wrapper.py:36-38 | nesting rolling and over appends the two suffixes in the order the wrappers are applied |
| RollingWrappers.NestingOrderExamples | src/auto_featurs/transformers/over_wrapper.py:31-33 | rolling then over gives `x_first_value_in_the_last_2d1h_over_g`, over then rolling `x_first_value_over_g_in_the_last_2d1h` |
| Pipelines.Construct | src/auto_featurs/pipeline/pipeline.py:414-415 | `factory(*column_combination, **transformer_kwargs)` yields an instance of that factory's class reading exactly the given columns (a wrapper reads its inner transformer), or a TypeError for arguments the constructor does not take, or the rolling constructor's own error |
| Pipelines.BuildOneAccepted | src/auto_featurs/pipeline/pipeline.py:415-417 | one iteration keeps the instance only when the validator accepts the combination's types, and otherwise raises the constructor's or the validator's error |
| Pipelines.BuildForCombination | src/auto_featurs/pipeline/pipeline.py:413-417 | the innermost loop appends one validated transformer per keyword-parameter combination, or stops at the first error |
| Pipelines.BuildForFactory | src/auto_featurs/pipeline/pipeline.py:411-417 | the middle loop runs the innermost loop over the combinations the optimizer keeps for the factory |
| Pipelines.BuildForCombinations | src/auto_featurs/pipeline/pipeline.py:411-417 | the middle loop's body appends what the innermost loop yields for each kept combination, in order, or stops at the first error |
| Pipelines.BuildForFactories | src/auto_featurs/pipeline/pipeline.py:410-417 | the outer loop appends what each factory yields, in factory order, or stops at the first error |
| Pipelines.BuildTransformers | src/auto_featurs/pipeline/pipeline.py:391-419 | `_build_transformers` computes the cartesian products of the column lists and of the parameter lists, then the three nested loops |
| Pipelines.ForCombinationLength | src/auto_featurs/pipeline/pipeline.py:413-417 | a successful innermost loop yields exactly one transformer per parameter combination |
| Pipelines.ForFactoryLength | src/auto_featurs/pipeline/pipeline.py:411-417 | a successful middle loop yields kept combinations times parameter combinations |
| Pipelines.ForFactoriesLength | src/auto_featurs/pipeline/pipeline.py:410-417 | a successful outer loop yields the per-factory counts summed |
| Pipelines.BuiltLength | src/auto_featurs/pipeline/pipeline.py:406-419 | the number built is, per factory, the combinations the optimizer keeps times the product of the parameter list lengths |
| Pipelines.OptimizedNoColumns | src/auto_featurs/pipeline/pipeline.py:403-406 | with no column lists `product()` is one empty combination, and every optimization level keeps it |
| Pipelines.NoColumnsBuiltOnce | src/auto_featurs/pipeline/pipeline.py:403-419 | with no column lists each factory is instantiated once per parameter combination |
| Pipelines.NoColumnsCount | src/auto_featurs/pipeline/pipeline.py:410-413 | the count for the single empty combination is factories times parameter combinations |
| Pipelines.BuiltFrom | src/auto_featurs/pipeline/pipeline.py:406-417 | every transformer built comes from one factory, one combination of the column lists and one combination of the parameter lists whose iteration succeeded |
| Pipelines.BuiltAccepted | src/auto_featurs/pipeline/pipeline.py:406-417 | every transformer built is an instance of one of the factories; a non-wrapper reads one combination of the input lists, which its class accepts; a wrapper wraps one of the given inner transformers |
| Pipelines.BuiltWithoutColumns | src/auto_featurs/pipeline/pipeline.py:403-413 | one factory with no column lists runs the innermost loop once, on the empty combination |
| Pipelines.PairMembers | src/auto_featurs/pipeline/pipeline.py:408 | every combination of two parameter lists is a pair of one element of each |
| Pipelines.PairsSingletons | src/auto_featurs/pipeline/pipeline.py:408-417 | looping over every pair of two lists with a one-result step puts the result for pair (i, j) at `i * len(b) + j` |
| Pipelines.WrappedPairs | src/auto_featurs/pipeline/pipeline.py:356-360 | building a wrapper over the inner transformers and the options puts the wrapper of inner i with option j at `i * len(options) + j` |
| Pipelines.WindowParams | src/auto_featurs/pipeline/pipeline.py:384 | the valid windows become the `time_window` parameter list, one per window, in order |
| Pipelines.AppendWrapped | src/auto_featurs/pipeline/pipeline.py:349-363 | the shared tail of both wrapper steps: the kept inputs, followed by the built wrappers only when there are valid options |
| Pipelines.GetRollingTransformers | src/auto_featurs/pipeline/pipeline.py:365-389 | `_get_rolling_transformers` returns its input without an index column or without windows, and otherwise the input when some window is falsy followed by the rolling wrappers over the valid windows |
| Pipelines.GetOverTransformers | src/auto_featurs/pipeline/pipeline.py:341-363 | `_get_over_transformers` returns its input without grouping options, and otherwise the input when some option is empty followed by the wrappers over the non-empty groupings |
| Pipelines.RollingBuildOne | src/auto_featurs/pipeline/pipeline.py:381-386 | one rolling wrapper is built from an inner transformer and a window over a DATETIME index |
| Pipelines.OverBuildOne | src/auto_featurs/pipeline/pipeline.py:356-360 | one grouping wrapper is built from an inner transformer and a list of grouping columns, turned into names |
| Pipelines.RollingWrapped | src/auto_featurs/pipeline/pipeline.py:381-386 | every input rolled over every valid window, inputs outermost |
| Pipelines.RollingShape | src/auto_featurs/pipeline/pipeline.py:371-389 | with a DATETIME index and some windows: the input only when some window is falsy, then for each input and each valid window in order the input rolled over that window (input i with window j at position i times the number of windows plus j) |
| Pipelines.OverWrapped | src/auto_featurs/pipeline/pipeline.py:356-360 | every input evaluated over every non-empty grouping, inputs outermost |
| Pipelines.OverShape | src/auto_featurs/pipeline/pipeline.py:346-363 | with some grouping options: the input only when some option is empty, then for each input and each non-empty grouping in order the input over that grouping (input i with grouping j at position i times the number of groupings plus j) |
| Pipelines.WrappedInner | src/auto_featurs/pipeline/pipeline.py:356-386 | everything a wrapper step builds is that wrapper around one of the inputs |
| Pipelines.RollingMembers | src/auto_featurs/pipeline/pipeline.py:365-389 | after the rolling step each transformer is an input or an input over a window |
| Pipelines.OverMembers | src/auto_featurs/pipeline/pipeline.py:341-363 | after the grouping step each transformer is an input or an input over a grouping |
| Pipelines.IndexColumn | src/auto_featurs/pipeline/pipeline.py:327 | no index without a truthy name; otherwise the schema's column of that name, or an error for an unknown name |
| Pipelines.AggregationInputs | src/auto_featurs/pipeline/pipeline.py:329 | without a subset there are no column lists; with one, the single list the selection resolves to, or its error |
| Pipelines.BuildAggregatedTransformers | src/auto_featurs/pipeline/pipeline.py:317-339 | `_build_aggregated_transformers` looks up and validates the index, resolves the subset, builds, then applies the rolling step and then the grouping step |
| Pipelines.AggregatedChecksIndexFirst | src/auto_featurs/pipeline/pipeline.py:327-328 | an unknown index name, a non-DATETIME index, or a first window without an index is the error raised, whatever the subset and factories are |
| Pipelines.AggregatedWithoutWrappers | src/auto_featurs/pipeline/pipeline.py:329-339 | without windows and groupings the aggregations come back as built |
| Pipelines.AggregatedWithoutWindows | src/auto_featurs/pipeline/pipeline.py:337-338 | without an index or windows the built aggregations go straight to the grouping step |
| Pipelines.AggregatedMembers | src/auto_featurs/pipeline/pipeline.py:317-339 | each result is a built aggregation, possibly in a rolling window, possibly over a grouping, with the grouping outermost |
| Pipelines.CountBuilt | src/auto_featurs/pipeline/pipeline.py:147-165 | `count` takes no column and no parameter: one instance carrying the build's cumulative option and condition |
| Pipelines.CountBuildOne | src/auto_featurs/pipeline/pipeline.py:414-417 | one iteration for `count` with no columns and no parameters yields the one count instance, which the validator accepts |
| Pipelines.OverOneGroupExample | src/auto_featurs/pipeline/pipeline.py:346-363 | grouping one transformer by `[]` and by `[g]` keeps it and adds it over `g` |
| Pipelines.CountOverExample | src/auto_featurs/pipeline/tests/test_pipeline.py:160 | `with_count(over_columns_combinations=[[], ['G']])` yields the plain count followed by the count over `G` |
| Pipelines.RollingTwoWindowsExample | src/auto_featurs/pipeline/pipeline.py:371-389 | two valid windows give only the rolling versions, in window order |
| Pipelines.RollingCountExample | src/auto_featurs/pipeline/tests/test_pipeline.py:162-165 | `with_count(time_windows=['2d', timedelta(days=2, hours=1)], index_column_name=...)` yields only the two rolling counts, in window order |
| PipelineApi.UniqueClasses | src/auto_featurs/pipeline/pipeline.py:61 | `[op.value for op in order_preserving_unique(operations)]`: the classes of the first occurrences of the requested members, in order |
| PipelineApi.ClassesOnce | src/auto_featurs/pipeline/pipeline.py:61 | for a one-to-one enumeration the class list has no repeats, holds the class of every requested member and nothing else |
| PipelineApi.OperationFactoriesDistinct | src/auto_featurs/pipeline/pipeline.py:59-266 | every front-end hands the build a class list without repeats |
| PipelineApi.BuildFromSelections | src/auto_featurs/pipeline/pipeline.py:60-66 | resolve the selections into column lists, or raise the first selection's error, then build every class on their combinations |
| PipelineApi.BuildOperation | src/auto_featurs/pipeline/pipeline.py:59-266 | each `with_<operation>` front-end (`with_time_diff` aside) builds the transformers its arguments describe, or raises the first error |
| PipelineApi.OperationMembers | src/auto_featurs/pipeline/pipeline.py:59-145 | a plain front-end builds only instances of the requested classes, each reading one combination of the resolved selections' columns that its class accepts |
| PipelineApi.OperationSelectionFails | src/auto_featurs/pipeline/pipeline.py:60 | a selection that cannot be resolved is the error raised, before any class is built |
| PipelineApi.AuxiliaryColumns.constructor | src/auto_featurs/pipeline/pipeline.py:55 | a fresh auxiliary list is empty |
| PipelineApi.AuxiliaryColumns.Extend | src/auto_featurs/pipeline/pipeline.py:299-300 | `list.extend` appends the new specifications after the old ones, in place |
| PipelineApi.NewPipeline | src/auto_featurs/pipeline/pipeline.py:46-57 | a missing or empty layer list becomes one empty layer; a missing or empty auxiliary list is replaced by a fresh empty one, a non-empty one is shared |
| PipelineApi.WithAddedToCurrentLayer | src/auto_featurs/pipeline/pipeline.py:294-307 | the batch minus the transformers whose outputs the schema already has joins the current layer of a new pipeline over the same dataset; with `auxiliary` their outputs are appended to the shared list in place |
| PipelineApi.WithNewLayer | src/auto_featurs/pipeline/pipeline.py:268-275 | the current layer's outputs are appended to the schema and an empty layer is opened, the auxiliary list passed on |
| PipelineApi.Apply | src/auto_featurs/pipeline/pipeline.py:59-266 | a front-end call adds what it builds to the current layer and shares a non-empty auxiliary list with the new pipeline (an empty one is replaced by a fresh list); an error raised while building leaves the pipeline and the auxiliary list as they were |
| PipelineApi.CollectPlan | src/auto_featurs/pipeline/pipeline.py:277-283 | the current layer's outputs join the schema, and one `with_columns` batch per layer, in layer order, is queued on the frame |
| PipelineApi.NewPipelineDerived | src/auto_featurs/pipeline/pipeline.py:46-57 | a new pipeline without layers satisfies the invariant: schema = base columns followed by the outputs of every completed layer |
| PipelineApi.AddedKeepsDerived | src/auto_featurs/pipeline/pipeline.py:302-307 | adding to the current layer keeps that invariant and appends exactly the kept transformers to the current layer |
| PipelineApi.OutputsAppend | src/auto_featurs/pipeline/pipeline.py:312-315 | appending one layer's outputs to the outputs of the completed layers gives the outputs of all of them |
| PipelineApi.NewLayerKeepsDerived | src/auto_featurs/pipeline/pipeline.py:268-275 | opening a new layer keeps the invariant |
| PipelineApi.CollectedSchema | src/auto_featurs/pipeline/pipeline.py:277-279 | the collected plan's schema is the base columns followed by the outputs of every layer |
| PipelineApi.NewLayerRepeatAddsNothing | src/auto_featurs/pipeline/pipeline.py:296 | a batch repeated after a new layer adds nothing, because the completed layer's outputs are now in the schema |
| PipelineApi.SameLayerKeepsRepeats | src/auto_featurs/pipeline/pipeline.py:296-304 | within one layer a repeated batch is added again: deduplication looks only at the schema, which adding to the layer does not change |
| FeatureSelection.NumToSelect | src/auto_featurs/feature_selection/feature_selector.py:142-157 | `_get_num_to_select` fails unless exactly one of `k` and `frac` is given, when `k < 1` and when `frac` is outside [0, 1]; otherwise it is `k`, or `int(frac * n)`, the largest whole number not above the exact product `frac * n` (see Left out on double rounding) |
| FeatureSelection.FirstUnsupported | src/auto_featurs/feature_selection/feature_selector.py:136-140 | the first feature column whose type is not supported, if any |
| FeatureSelection.TypeCheck | src/auto_featurs/feature_selection/feature_selector.py:126-140 | the check passes exactly when the label's type and every feature's type are supported; an unsupported label is reported first, otherwise the first unsupported feature |
| FeatureSelection.CheckValidTypes | src/auto_featurs/feature_selection/feature_selector.py:126-140 | the loop over the feature columns raises exactly what the check describes |
| FeatureSelection.ReportInputsChecked | src/auto_featurs/feature_selection/feature_selector.py:58-64 | `get_report` needs a label column, then a resolvable subset, then supported types, and then works on the label's name and the features' names |
| FeatureSelection.OutranksStrictTotal | src/auto_featurs/feature_selection/feature_selector.py:55 | sorting by statistic descending, then name ascending, is a strict total order on distinct entries |
| FeatureSelection.InsertRanking | src/auto_featurs/feature_selection/feature_selector.py:55 | inserting into a ranked list keeps it ranked and adds exactly the one entry |
| FeatureSelection.RankSort | src/auto_featurs/feature_selection/feature_selector.py:55 | the sort yields the entries in rank order, as a permutation of the input |
| FeatureSelection.RankOrderSameHead | src/auto_featurs/feature_selection/feature_selector.py:55 | two rankings of the same entries start with the same entry |
| FeatureSelection.SameTails | src/auto_featurs/feature_selection/feature_selector.py:55 | two lists with the same first entry and the same entries have tails with the same entries |
| FeatureSelection.RankOrderUnique | src/auto_featurs/feature_selection/feature_selector.py:55 | there is only one ranking of a given list of entries, so any correct sort gives this order |
| FeatureSelection.Rankings | src/auto_featurs/feature_selection/feature_selector.py:55 | one entry per feature, pairing each name with its statistic |
| FeatureSelection.SelectFeatures | src/auto_featurs/feature_selection/feature_selector.py:48-56 | `select_features` fails exactly when the number to select does, with that error, and otherwise returns that many names, or every name when there are fewer |
| FeatureSelection.SelectedAreBest | src/auto_featurs/feature_selection/feature_selector.py:55-56 | the chosen names are the first of the ranking in rank order, and no feature left out outranks a chosen one |
| FeatureSelection.RankSortExample | src/auto_featurs/feature_selection/tests/test_feature_selector.py:40-44 | stats 0, .5, .5, 1 for a, b, c, d rank as d, b, c, a: the tie goes to the smaller name |
| FeatureSelection.HalfOfEven | src/auto_featurs/feature_selection/feature_selector.py:155 | half of an even number of columns is exactly half |
| FeatureSelection.SelectHalfOfFour | src/auto_featurs/feature_selection/feature_selector.py:48-56 | `frac = 0.5` on four features selects the first two of the ranking |
| FeatureSelection.SelectHalfExample | src/auto_featurs/feature_selection/tests/test_feature_selector.py:62-64 | `frac = 0.5` on the report of the test selects `['d', 'b']` |
| FeatureSelection.SelectTopOfFour | src/auto_featurs/feature_selection/feature_selector.py:48-56 | `top_k = 1` on four features selects the first of the ranking |
| FeatureSelection.SelectTopExample | src/auto_featurs/feature_selection/tests/test_feature_selector.py:58-60 | `top_k = 1` on the report of the test selects `['d']` |

## Left out

- `Pipeline.with_time_diff` (pipeline.py:70-79) is not modelled. It builds `TimeDiffTransformer`, and that class is not part of this model.
- Polars is not modelled: the frame, the expressions, their evaluation, `collect` (pipeline.py:290-292) and `Dataset.collect`. A transformer's expression is represented by its output name. A dataset is its schema plus the list of queued `with_columns` batches.
- The final `dataset.drop(self._auxiliary_columns)` of `collect_plan` (pipeline.py:284) is not modelled, because `Dataset` (dataset.py) defines no `drop`. The `cache_computation` branch (pipeline.py:286-287) is not modelled either; it only changes how the engine evaluates the plan. `PipelineApi.CollectPlan` stops before both.
- `Dataset.__init__` and its `drop_columns_outside_schema` (dataset.py:17-30) act on the polars frame and are not modelled.
- The statistics of the feature selector (feature_selector.py:78-124) are left out: point-biserial correlation, the t-test, p-values and `SelectionReport.to_frame`. A report is taken as given names and statistics. `FeatureSelection.ReportInputsChecked` covers `get_report` up to the point where the statistics are computed.
- Regular expressions are not modelled. Name-pattern selectors take the regex search as a function parameter, and `TextCountMatchesTransformer` keeps its regex as text.
- `LogTransformer` is not modelled on float bases. A base other than `math.e` is carried by the text Python prints for it.
- Log output, warning texts and error message texts are left out. `Validators.RaiseOrWarn` reports the warning as a value, and errors are tagged by kind with the names they mention.
- The `fill_value` of `LaggedTransformer` (aggregating_transformers.py:72-88) affects only the computed values, not the name or type, and is not modelled.
- `Utils.FormatTimedelta` takes a duration as a whole number of seconds. The `int(total_seconds())` truncation of fractional seconds is not modelled. The units come from a constants module that is not part of this model. A month of 30 days follows the test at test_utils.py:36; a year of 365 days is an assumption.
- `TextCountMatchesTransformer` and `QuantileTransformer` cannot be built by the pipeline, which never passes a pattern or a quantile. `Pipelines.Construct` returns the TypeError for them.
- The validation flag is not modelled. The pipeline's validator always raises, so `_build_transformers` sees only failures, and the warn-only mode appears only in `Validators.RaiseOrWarn`.
- `_with_added_to_current_layer` also accepts a single transformer (pipeline.py:295). The front-ends always pass a list, so only the list form is modelled.
- FeatureSelection.NumToSelect: `frac` is an exact real, so a NaN `frac` and double rounding are not modelled. The model floors the exact product `frac * n`; Python floors the product of two doubles, which can fall just below a whole number and give one less (`frac = 0.29` with 100 columns: 28 in Python, 29 here). Fractions whose products are exact in binary, such as 0.5 of an even count, agree.
- AggregatingTransformers.Aggregation: a quantile `q` is an exact real, and its name uses `int(q * 100)` of the exact product. Python's double product can be one lower (`QuantileTransformer(c, 0.29)` is `c_quantile_28` in Python, `quantile_29` here). Quantiles exact in binary, such as 0.25, agree (`AggregatingTransformers.QuantileNameExample`).
- Validators.ExpectedPositions: reads a `ColumnTypeSelector` as its type set. As written, validator.py:31-32 raises TypeError on every selector, so this outcome is what the validator's tests intend, not what the code does (`Validators.ValidateTransformerAsWritten`, "## Findings").
- Validators.ValidateTransformer: reads a `ColumnTypeSelector` as its type set. As written, validator.py:31-32 raises TypeError on every selector, so this outcome is what the validator's tests intend, not what the code does (`Validators.ValidateTransformerAsWritten`, "## Findings").
- Validators.CountArity: reads a `ColumnTypeSelector` as its type set. As written, validator.py:31-32 raises TypeError on every selector, so this outcome is what the validator's tests intend, not what the code does (`Validators.ValidateTransformerAsWritten`, "## Findings").
- Validators.ArithmeticPositions: reads a `ColumnTypeSelector` as its type set. As written, validator.py:31-32 raises TypeError on every selector, so this outcome is what the validator's tests intend, not what the code does (`Validators.ValidateTransformerAsWritten`, "## Findings").
- Validators.SinPositions: reads a `ColumnTypeSelector` as its type set. As written, validator.py:31-32 raises TypeError on every selector, so this outcome is what the validator's tests intend, not what the code does (`Validators.ValidateTransformerAsWritten`, "## Findings").
- Validators.SinValidation: reads a `ColumnTypeSelector` as its type set. As written, validator.py:31-32 raises TypeError on every selector, so this outcome is what the validator's tests intend, not what the code does (`Validators.ValidateTransformerAsWritten`, "## Findings").
- Pipelines.BuildOneAccepted: reads a `ColumnTypeSelector` as its type set. As written, validator.py:31-32 raises TypeError on every selector, so this outcome is what the validator's tests intend, not what the code does (`Validators.ValidateTransformerAsWritten`, "## Findings").
- Pipelines.CountBuilt: reads a `ColumnTypeSelector` as its type set. As written, validator.py:31-32 raises TypeError on every selector, so this outcome is what the validator's tests intend, not what the code does (`Validators.ValidateTransformerAsWritten`, "## Findings").
- Pipelines.CountBuildOne: reads a `ColumnTypeSelector` as its type set. As written, validator.py:31-32 raises TypeError on every selector, so this outcome is what the validator's tests intend, not what the code does (`Validators.ValidateTransformerAsWritten`, "## Findings").
- Pipelines.CountOverExample: reads a `ColumnTypeSelector` as its type set. As written, validator.py:31-32 raises TypeError on every selector, so this outcome is what the validator's tests intend, not what the code does (`Validators.ValidateTransformerAsWritten`, "## Findings").
- Pipelines.RollingCountExample: reads a `ColumnTypeSelector` as its type set. As written, validator.py:31-32 raises TypeError on every selector, so this outcome is what the validator's tests intend, not what the code does (`Validators.ValidateTransformerAsWritten`, "## Findings").
- Integers are unbounded. Python's are too, so nothing is lost there.
- The schema's unique-names invariant is not assumed. Lookups return the first column of a name, as the code does.
- PipelineApi.Apply: the front-ends are modelled as one method over an `Operation` value rather than thirteen methods (the fourteenth front-end, `with_time_diff`, is left out above). Each builds exactly what its Python counterpart passes to the build.

## Findings

| source | as written | input that shows it | evidently intended | confidence | as-written member | corrected member |
|---|---|---|---|---|---|---|
| src/auto_featurs/pipeline/validator.py:30-32 | a `ColumnTypeSelector` from `input_type()` is not a `set`, so it is iterated, or passed to `len()` inside a tuple; the class defines neither, and TypeError is raised | `CountTransformer()` on no columns, or `SinTransformer('a')` on a NUMERIC `a`, in raising or warning mode | the selector's types are the accepted types, as test_validator.py:49-66 expects the arity and type errors for selector-declaring mocks | high; not executed | Validators.ValidateTransformerAsWritten, Validators.CountRaisesAsWritten, Validators.SinRaisesAsWritten | Validators.ValidateTransformer |
