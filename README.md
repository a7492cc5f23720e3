# Halloumi snippet generator, modelled in Dafny

The `update-snippets.ts` script builds the editor snippet file for the Halloumi
Ruby DSL. It starts a table `generatedSnippets` with four fixed entries: an
environment property, a template property, an output and a virtual resource. It
then adds one entry per resource type of the CloudFormation resource
specification. Each entry is stored under the key `Halloumi_<type>` and holds:

- a trigger prefix: the type with its first `AWS::` removed;
- a body: six header lines, a "Required properties" section, an "Other
  properties" section and `end`;
- a description: `The <type> basic resource`.

Each property line is `\tr.property(:<name>) { ... }` and can carry the
annotations "Can have duplicates" and "Change triggers replacement".

The model has four modules:

- `JsBuiltins` (`js_builtins.dfy`): the JavaScript built-ins the script relies
  on. These are `indexOf`, `replace` with a string pattern (only the first
  occurrence is replaced) and `join`.
- `Schema` (`schema.dfy`): the parsed resource specification, as far as the
  script reads it. A JavaScript object becomes an association list with
  distinct keys, in key order.
- `SnippetBody` (`snippet_body.dfy`): the property comments, property lines,
  the split into required and other properties, and the body of one resource.
  Each loop of the script is a method. Each method's `ensures` ties it to a
  specification function (`Comments`, `Lines`, `Group`, `Body`), and lemmas
  state what those functions promise.
- `SnippetTable` (`snippet_table.dfy`): the output object, an ordered
  dictionary in which assigning to an existing key keeps that key's position.
  It also holds the class `GeneratedSnippets` wrapping the global table, and
  `Generate`, the whole run after the schema has been parsed.

`changeCase.snakeCase` and `String.prototype.toLowerCase` are passed in as
given functions (`ChangeCase`); nothing is assumed about them.

The script has one quirk at `update-snippets.ts:110`: the "Other properties"
section is guarded by the size of the *required* group. The model keeps this
behaviour as written. As a result, a resource with no required property loses
all its optional properties, and `OptionalDroppedWithoutRequired` says so.

## Model

| member | source | states |
|---|---|---|
| SnippetBody.Comments | update-snippets.ts:9-16 | at most two annotations; "Can have duplicates" is present iff `DuplicatesAllowed` is true; "Change triggers replacement" is present iff `UpdateType` is `"Immutable"`; nothing else appears; when both are present, duplicates comes first |
| SnippetBody.GeneratePropertyComments | update-snippets.ts:9-16 | the list the two pushes build is exactly `Comments` of the property |
| SnippetBody.PropertyLineCases | update-snippets.ts:101-104 | a property line is the declaration alone, or the declaration followed by ` # ` and one annotation, or by both annotations joined with ` / `, one shape per combination of the two flags |
| SnippetBody.PropertyLineStartsWithTab | update-snippets.ts:101 | every property line is non-empty and starts with a tab |
| SnippetBody.AppendPropertyLines | update-snippets.ts:98-105 | the loop over a group appends one line per property, in group order, and leaves the earlier body untouched |
| SnippetBody.Partition | update-snippets.ts:86-94 | the loop puts exactly the properties with `Required === true` into the required list and all others into the other list, both in object order |
| SnippetBody.GroupMembers | update-snippets.ts:89-93 | a property is in the required group iff it is in the object and `Required === true`; it is in the other group iff it is in the object and not |
| SnippetBody.PartitionTotal | update-snippets.ts:86-94 | together the two groups hold exactly the properties of the object, counted with multiplicity, and their sizes add up to the object's size |
| SnippetBody.GroupStable | update-snippets.ts:86-94 | each group is a subsequence of the object: group positions map to object positions by a strictly increasing index |
| SnippetBody.GroupDistinct | update-snippets.ts:83-84 | each group again has distinct keys, as the objects `requiredProperties` and `otherProperties` do |
| SnippetBody.BuildBody | update-snippets.ts:72-120 | the body the pushes build is exactly `Body` of the resource |
| SnippetBody.AssembleLayout | update-snippets.ts:76-120 | an assembled body is six header lines, then (only with required lines) the required heading, the required lines, a blank line, the other heading and the other lines, then `end`; its length is 6 + (R > 0 ? R + 2 + 1 + O : 0) + 1 |
| SnippetBody.BodyLength | update-snippets.ts:76-120 | a body has 6 + (R > 0 ? R + 2 + 1 + O : 0) + 1 lines, where R and O are the sizes of the two groups |
| SnippetBody.BodyFrame | update-snippets.ts:76-81 | every body starts with the six header lines (which include the documentation link) and ends with `end` |
| SnippetBody.RequiredSection | update-snippets.ts:96-108 | with a required property, line 6 is the required heading, then come the required lines in group order, then a blank line |
| SnippetBody.OtherSection | update-snippets.ts:110-120 | with a required property, the other heading follows the blank line, then come the other lines in group order, then the final `end` |
| SnippetBody.AssembleOrder | update-snippets.ts:96-119 | in an assembled body, every required line comes at an earlier position than every other line |
| SnippetBody.RequiredBeforeOther | update-snippets.ts:96-119 | the line of the k-th required property sits at a position before the line of the l-th other property |
| SnippetBody.BodyWithoutRequired | update-snippets.ts:96-120 | with no required property the body is the header plus `end`, and none of its lines starts with a tab |
| SnippetBody.HeaderWithoutTab | update-snippets.ts:76-81 | no header line and not `end` is empty or starts with a tab |
| SnippetBody.OptionalDroppedWithoutRequired | update-snippets.ts:110 | as written, when no property is required, the line of any property does not appear in the body, and neither does the other heading |
| SnippetBody.OneRequiredImmutable | update-snippets.ts:76-120 | a resource whose one property is required and immutable gets the header, the required heading, one annotated line, a blank line, the other heading and then `end` |
| JsBuiltins.IndexOfFinds | update-snippets.ts:124 | `indexOf` returns -1 iff the pattern occurs nowhere, and otherwise the first index where it occurs |
| JsBuiltins.Replace | update-snippets.ts:124 | `replace` leaves the string alone when the pattern does not occur, and otherwise replaces only its first occurrence |
| JsBuiltins.JoinLength | update-snippets.ts:103 | a joined string is as long as its parts plus one separator between each pair of neighbours |
| JsBuiltins.JoinSmall | update-snippets.ts:103 | joining one annotation gives that annotation; joining two puts ` / ` between them |
| SnippetTable.InsertKeepsOthers | update-snippets.ts:123 | an assignment sets its own key, leaves every other key and value unchanged, and keeps the key order well formed with the old order as a prefix |
| SnippetTable.InsertAllStep | update-snippets.ts:72-127 | one more loop round is one more assignment after those before it |
| SnippetTable.InsertAllWellFormed | update-snippets.ts:72-127 | the key order stays duplicate-free and covers exactly the entries; the old key order stays a prefix |
| SnippetTable.InsertAllKeys | update-snippets.ts:72-127 | after the assignments, the keys are the old keys plus the assigned keys |
| SnippetTable.InsertAllLatest | update-snippets.ts:123 | a key holds the value of its last assignment |
| SnippetTable.InsertAllUntouched | update-snippets.ts:123 | a key that no assignment names keeps its old value |
| SnippetTable.InsertFour | update-snippets.ts:19-67 | four assignments in order are the assignments of the list of four |
| SnippetTable.InsertFourDistinct | update-snippets.ts:19-67 | four assignments under distinct keys into an empty object give those four entries, in assignment order |
| SnippetTable.StaticTable | update-snippets.ts:19-67 | the four fixed assignments give exactly the four fixed entries, in source order, under four distinct keys |
| SnippetTable.ResourceKeyInjective | update-snippets.ts:123 | distinct resource types get distinct `Halloumi_` keys |
| SnippetTable.PrefixStripsFirstAws | update-snippets.ts:124 | the trigger prefix is the type itself when it has no `AWS::`, is the rest of the type when it starts with `AWS::`, and otherwise is the type with only its first `AWS::` removed |
| SnippetTable.ResourceSnippetKeys | update-snippets.ts:72-127 | the resource loop assigns exactly one `Halloumi_` key per resource type and no other key |
| SnippetTable.FinalTableKeys | update-snippets.ts:19-127 | the final table has a duplicate-free key order that starts with the four fixed keys in source order; its keys are exactly the four fixed keys plus `Halloumi_<type>` for every resource type |
| SnippetTable.FinalTableResource | update-snippets.ts:123-127 | each resource type's key holds its snippet: the prefix with `AWS::` stripped, its body, and the description `The <type> basic resource` |
| SnippetTable.FinalTableStatic | update-snippets.ts:19-67 | a fixed entry keeps its value unless some resource type's key coincides with its key |
| SnippetTable.GeneratedSnippets.constructor | update-snippets.ts:7 | `generatedSnippets` starts as the empty object |
| SnippetTable.GeneratedSnippets.Put | update-snippets.ts:123 | an assignment changes the table exactly as `Insert` does and keeps it well formed |
| SnippetTable.GeneratedSnippets.AddStaticSnippets | update-snippets.ts:19-67 | the four fixed assignments, in source order |
| SnippetTable.Generate | update-snippets.ts:7-127 | the table after the fixed entries and the resource loop is exactly `FinalTable` of the resource types, which the lemmas above describe |

## Left out

- Fetching the specification over the network and parsing its JSON are left out. The parsed `ResourceTypes` object is the input of `Generate`.
- Writing `snippets/snippets.json`, `JSON.stringify`, and the console messages in the write callback are left out, because they are only I/O.
- `changeCase.snakeCase` and `toLowerCase` are not defined, because they live in a foreign library and Unicode case tables. They are given functions, so no property depends on what they compute.
- The `for ... in` key order is taken as the order of the association list. JavaScript lists integer-like keys first, in numeric order; that ordering is not modelled.
- The promise chain's asynchrony is not modelled. The four fixed entries are added before the resource loop runs, as in a single run of the script.
- SnippetBody.Comments: `DuplicatesAllowed == true` is modelled for boolean or missing values only. JavaScript's loose equality also accepts values such as `1` or `"1"`, and the model's schema has no such values.
- `Documentation` is modelled as a string or missing (printed as `undefined`). Other JSON values and their string conversion are not modelled.
- A resource without `Properties` is given the empty table, since `for ... in undefined` runs no iteration.
- The specification's `PropertyTypes` section and the unused variable `pIndex` are not read by the script, so they are not modelled.
