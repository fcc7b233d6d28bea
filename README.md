# keen-query: composite queries and row reduction, modelled in Dafny

keen-query turns a compact expression into a tree of analytics queries,
runs them against the Keen service and prints the result. This project
models the two parts of it that combine and reshape results:

- the composite query node `Aggregator` (lib/aggregator/index.js): an
  ordered list of child queries merged by a combination strategy looked up
  by name in a shared registry (`concat`, `ratio`, `pct`, `sum`, plus
  anything added with `define`), a lazily filled result table `_table`, an
  optional list of post-processing table operations, and a default print
  style;
- the row reduction of lib/aggregators/reduce.js: `pluck`, the four column
  strategies `avg`, `min`, `max` and `median` (which is really a mode), and
  the reshaping that turns a result matrix into one row per strategy.

Files:

- `wrappers.dfy` — `Option` and `Result`, standing for `undefined` and thrown errors.
- `strings.dfy` — `join`, `split` on one character (with the round trip
  `Split(Join(parts)) == parts` for one or more separator-free parts) and the decimal
  key string JavaScript gives an integer.
- `reduce.dfy` — module `Reduce`: pure functions for `pluck`, the strategies
  and the reshaping; the `median` strategy also as the imperative two-pass
  method the source runs (`MedianByCounting`), proved equal to its
  specification `Median`.
- `aggregator.dfy` — module `Aggregator`: the `Registry` class (the shared
  `aggregators` object and `define`) and the `Aggregator` class with the
  fields the source updates in place (`queries`, `_printer`,
  `_postProcessing`, `_table`, `_dimension`) and a ghost count of strategy
  runs.

Everything the two files call but do not define — the expression builder,
the child queries, the result tables and their operations, the printers
and the bodies of the combination strategies — is an abstract type or a
function field of the `Env` value each node carries. The model fixes what
the two files do with them, not what those collaborators compute.

The `median` strategy counts values in a plain object and walks
`Object.keys` of it. The model follows JavaScript's key order: keys that are
array indices (integers from 0 to 2^32 - 2) come first in ascending order,
the other keys after them in insertion order. The strategy returns the key
itself, so its result is always a string: the decimal form of the winning
value, or `'none'`.

Three behaviours of the code that are easy to miss:

- `setPrinter` copies the cached table: it calls `this.clone(true)`
  (lib/aggregator/index.js:53).
- `median` answers `'none'` whenever no value occurs twice, because the
  count to beat starts at 1 (lib/aggregators/reduce.js:24-31); an empty
  column is only one such case.
- The transformation methods call `this.clone()` with no argument
  (lib/aggregator/index.js:103), so their copies carry no data and clone
  their children without data.

## Model

| member | source | states |
|---|---|---|
| `Reduce.Pluck` | lib/aggregators/reduce.js:5-7 | the column has one entry per row and its k-th entry is `matrix[k][column]` |
| `Reduce.Avg` | lib/aggregators/reduce.js:10-12 | `NaN` exactly for an empty column; otherwise the mean, whose product with the column's length is the column's sum |
| `Reduce.AvgWithinExtremes` | lib/aggregators/reduce.js:10-12 | for a non-empty column the mean (sum over length, taken exactly) lies between the column's `min` and `max` |
| `Reduce.Min` | lib/aggregators/reduce.js:13-15 | `undefined` exactly for an empty column; otherwise a value of the column that is at most every value |
| `Reduce.Max` | lib/aggregators/reduce.js:16-18 | `undefined` exactly for an empty column; otherwise a value of the column that is at least every value |
| `Reduce.FoldMin` | lib/aggregators/reduce.js:14 | the `Math.min` fold ends on its start value or a value of the list, at most both |
| `Reduce.FoldMax` | lib/aggregators/reduce.js:17 | the `Math.max` fold ends on its start value or a value of the list, at least both |
| `Reduce.FirstOccurrences` | lib/aggregators/reduce.js:20-23 | the counting object's properties are exactly the column's values |
| `Reduce.FirstOccurrencesInOrder` | lib/aggregators/reduce.js:20-23 | no property is added twice, and a property added earlier occurs in the column before every occurrence of one added later |
| `Reduce.IndexKeys` | lib/aggregators/reduce.js:25 | `Object.keys` lists the array-index keys first, strictly ascending |
| `Reduce.OtherKeys` | lib/aggregators/reduce.js:25 | the remaining keys follow, exactly the non-index values |
| `Reduce.OtherKeysInOrder` | lib/aggregators/reduce.js:25 | the non-index keys keep the properties' insertion order |
| `Reduce.KeyOrder` | lib/aggregators/reduce.js:20-25 | the keys walked by the reduce are exactly the values of the column: index keys ascending first, then the others |
| `Reduce.ModeFrom` | lib/aggregators/reduce.js:24-31 | the reduce ends on its initial pick or on a walked key whose count beats the starting `maxCount` |
| `Reduce.Mode` | lib/aggregators/reduce.js:19-31 | a pick is a value of the column that occurs at least twice |
| `Reduce.Median` | lib/aggregators/reduce.js:19-32 | an empty column gives `'none'`; any other answer is the key string of a value occurring at least twice |
| `Reduce.ModeFromKeeps` | lib/aggregators/reduce.js:24-31 | when no key beats `maxCount` the reduce keeps its initial pick |
| `Reduce.ModeFromPicks` | lib/aggregators/reduce.js:24-31 | when some key beats `maxCount` the reduce ends on the first key with the largest count |
| `Reduce.MedianNoneIffNoRepeats` | lib/aggregators/reduce.js:24-31 | `median` answers `'none'` if and only if no value occurs more than once, the empty column included |
| `Reduce.MedianIsMostFrequent` | lib/aggregators/reduce.js:19-32 | a picked value occurs in the column at least twice, no value occurs more often, and the answer is its key string |
| `Reduce.ModeIsFirstLargest` | lib/aggregators/reduce.js:25-31 | the pick is the first key in `Object.keys` order whose count is maximal: every earlier key has a strictly smaller count |
| `Reduce.MedianTieGoesToSmallerIndex` | lib/aggregators/reduce.js:25-31 | among tied array-index values the smallest wins |
| `Reduce.MedianTieGoesToEarlierOccurrence` | lib/aggregators/reduce.js:20-31 | against a tied non-index value the pick is an array index or a value that occurs before every occurrence of the other |
| `Reduce.MedianNegativeTie` | lib/aggregators/reduce.js:19-32 | `[-2, -1, -1, -2]` gives `"-2"`: the value seen first wins the tie |
| `Reduce.MedianExamples` | lib/aggregators/reduce.js:19-32 | `[10, 10, 20]` gives `"10"` and an empty column gives `"none"` |
| `Reduce.CountValues` | lib/aggregators/reduce.js:20-23 | the counting pass leaves each value's number of occurrences in `obj` and the properties in the order the object gains them |
| `Reduce.MedianByCounting` | lib/aggregators/reduce.js:19-32 | the two-pass counting code returns exactly `Median(vals)` |
| `Reduce.Requested` | lib/aggregators/reduce.js:59 | `'all'` asks for avg, min, max and median in that order; any other name asks for itself alone |
| `Reduce.ApplyStrategy` | lib/aggregators/reduce.js:65 | calling `strategiesMap[name]` fails exactly when the name is not one of the four strategies |
| `Reduce.ReduceRow` | lib/aggregators/reduce.js:61-66 | one output row as long as the first input row: the name in cell 0, the strategy over column i in cell i; it fails only for an unknown name with at least one data column |
| `Reduce.ReduceRows` | lib/aggregators/reduce.js:59-67 | no rows fails; otherwise one row per requested strategy, four for `'all'` in the order avg, min, max, median, one for any other name |
| `Reduce.ReducedRowShape` | lib/aggregators/reduce.js:60-67 | each reduced row has the first input row's length, its strategy's name first and that strategy over column i in cell i |
| `Reduce.AfterExecution` | lib/aggregators/reduce.js:55-69 | an unset or empty `postPrint` returns the executed rows unchanged; otherwise the reduced rows go to the printer named by `postPrint` |
| `Aggregator.StripSigil` | lib/aggregator/index.js:18 | the strategy name is the aggregator field without its first character |
| `Aggregator.Resolve` | lib/aggregator/index.js:18-22 | the lookup succeeds exactly when the stripped name is a registry key, yields that entry, and otherwise fails naming it |
| `Aggregator.Registry.constructor` | lib/aggregator/index.js:6-11 | the registry starts with `concat`, `ratio`, `pct` and `sum` |
| `Aggregator.Registry.Define` | lib/aggregator/index.js:94-96 | after `define(n, f)` the name `n` yields `f`, replacing any earlier entry, and every other entry is unchanged |
| `Aggregator.EffectiveStyle` | lib/aggregator/index.js:30 | a non-empty given style wins; an absent or empty one falls back to the stored printer |
| `Aggregator.IsPassThrough` | lib/aggregator/index.js:32 | exactly the styles `qs`, `qo` and `url`, each of which survives the fallback unchanged |
| `Aggregator.ApplyPostOps` | lib/aggregator/index.js:44-46 | no steps leave the table as it is; otherwise the first step is applied to the table and the rest run on its result |
| `Aggregator.Aggregator.Make` | lib/aggregator/index.js:74 | a node with exactly the given fields, no explicit dimension and no strategy run yet |
| `Aggregator.Aggregator.GetTable` | lib/aggregator/index.js:86-88 | the cached table, unchanged |
| `Aggregator.Aggregator.Factory` | lib/aggregator/index.js:14-25 | construction fails exactly when the stripped name is not registered; on success the children are the built descriptors, the name is the stripped name, and no table is cached; the failure's message is `Invalid aggregator name ` followed by the stripped name |
| `Aggregator.Aggregator.Print` | lib/aggregator/index.js:28-50 | a pass-through style gives one output per child in child order and changes nothing; a cached table is printed without running anything; otherwise the children execute, the strategy runs once and the post-processing result is cached and printed |
| `Aggregator.Aggregator.Execute` | lib/aggregator/index.js:40-49 | children first, then one strategy run, then the post-processing steps applied to the strategy's table |
| `Aggregator.Aggregator.MaterializeChildren` | lib/aggregator/index.js:40 | every child is printed as json, in child order |
| `Aggregator.Aggregator.RunPostProcessing` | lib/aggregator/index.js:43-47 | the steps run in list order, each replacing the table with the step applied to the current table |
| `Aggregator.ApplyPostOpsAppend` | lib/aggregator/index.js:44-46 | running a list of steps equals running its first part and then its second part on that result |
| `Aggregator.PrintTwice` | lib/aggregator/index.js:36-38 | two non-pass-through prints of an uncached node run its strategy exactly once |
| `Aggregator.Aggregator.SetPrinter` | lib/aggregator/index.js:52-56 | a fresh data-copying clone whose default style is the new one, with no explicit dimension; the receiver keeps its own |
| `Aggregator.Aggregator.ToString` | lib/aggregator/index.js:58-60 | the name and the children's strings joined with commas in the form `@name(...)`, which reads back to the name and the children's strings when neither contains the delimiters |
| `Aggregator.SignatureRoundTrip` | lib/aggregator/index.js:58-60 | parsing `@name(c1,...,cn)` gives back the name and the children for a name without '(' and children without ',' |
| `Aggregator.Aggregator.Dimension` | lib/aggregator/index.js:62-67 | `_dimension` if set, else the table's dimension if a table is cached, else the first child's; absent only with none of the three |
| `Aggregator.Aggregator.GenerateKeenUrl` | lib/aggregator/index.js:69-71 | one URL per child, the child's own, in child order |
| `Aggregator.Aggregator.Clone` | lib/aggregator/index.js:73-84 | a fresh node with every child cloned with the same flag, the same name, strategy, style and steps, and a cloned table only when data is asked for |
| `Aggregator.Aggregator.Transform` | lib/aggregator/index.js:101-107 | a fresh node without data or explicit dimension whose children are the transformed clones of the receiver's children; the receiver is unchanged |

## Left out

- Promise plumbing: the children print one after the other, and a child that fails is not modelled; its failure would end `print` in the source.
- The printers, the table operations, the expression builder, the leaf queries and the `concat`, `ratio`, `pct` and `sum` strategy bodies are not part of this model. They are abstract functions of `Env`, so an unknown print style or an unknown table method is the printers' or the table's affair.
- `Table.mixin` (lib/aggregator/index.js:99) belongs to the table module, which is not part of this model.
- `Reduce.Avg`: JavaScript floating-point division is taken as exact division of reals; only its relation to `min` and `max` is proved. An empty column gives `NaN`.
- Reduce.Pluck, Reduce.ReduceRow, Reduce.ReduceRows, Reduce.AfterExecution: rows shorter than the first row would give `undefined` cells; these members require every row to reach as far as the first one, so ragged matrices are not modelled.
- Reduce.MedianByCounting: values are integers and their key strings are plain decimal; JavaScript's exponent notation for very large numbers and its float keys are not modelled.
- `Reduce.AfterExecution` returns the reduced rows instead of writing them into the executed response's `rows` field, and leaves out the debug `console.log(res)` and the executing of the query itself.
- When `postPrint` is set is not modelled: nothing in the code shown assigns it, so the reduction is a function of an explicit `postPrint` argument.
- `Reduce.toString` returns a field set elsewhere and is not modelled.
- Strategy names that coincide with members inherited from `Object.prototype` (such as `toString`) are treated as unregistered in both registries; in JavaScript the lookup would find the inherited function.
- A registry entry defined as a falsy value would make the constructor throw; entries here are always strategies.
- Falsy values of `_dimension` or of a table's dimension, which the getter would skip, are not modelled.
- Aggregator.Aggregator.ToString: the read-back is stated for children without commas only; nested composite children are the builder's business.
- The post-processing entries and the children are values here. `clone` copies each entry with `Object.assign({}, f)` (lib/aggregator/index.js:79), a shallow copy, so in the source each entry's `params` array stays shared between the clone and the original; the value model cannot express that aliasing.
- The printers receive only the style and the table (`render` of `Env`). In the source `printers.call(this, style)` (lib/aggregator/index.js:37 and 48) hands them the whole node, its `dimension` included; what a printer reads from the node beyond the table is not modelled.
- Aggregator.Aggregator.Print: a combination strategy (`runStrategy` of `Env`) is assumed to return normally, to see only the children, and always to write a table (and at most also `_dimension`). In the source the strategy runs as a method of the node (lib/aggregator/index.js:41); one that throws, or returns without setting `_table`, leaves `_table` unset: the print rejects (or, with no post-processing steps, hands the printers a node without a table), nothing is cached, and the next print runs the strategy again (index.js:36). Those outcomes are not modelled.
- Aggregator.Aggregator.Execute: for the same reason it always caches a table after its one strategy run; a throwing or table-less strategy, which in the source leaves `_table` unset, is not modelled.
- Aggregator.PrintTwice: the single strategy run also rests on the strategy returning normally and writing a table; with a throwing or table-less strategy the source runs it again on the second print.
- Aggregator.PrintTwice: the single strategy run holds only when the second print starts after the first has resolved. Two prints started before the first Promise resolves both find `_table` empty and both run the strategy (lib/aggregator/index.js:40-47); interleaved prints are not modelled.
- Calling the constructor without a configuration (used by `clone`) is the constructor `Make`, which sets every field.
