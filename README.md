# Context evaluation helpers of the code-intelligence client

This project models the two context helpers of the client's extension API
(`shared/src/api/client/context`). Both are pure and total.

- `applyContextUpdate(context, update)` merges a partial update into the flat
  key/value context map. A `null` in the update deletes the key. Any other
  value is stored under the key. Keys the update does not mention keep their
  entry, even one whose value is `null`.
- `getComputedContextProperty(model, settings, context, expr)` resolves a
  context expression by its prefix:
  - `config.<key>` reads the settings cascade's merged `final` view, taking the
    whole remainder as one literal key. A missing key gives `null`.
  - `resource.<field>` reads the document of the primary (first visible) view
    component: its uri, basename, dirname, extname, language, and the constant
    `"textDocument"`.
  - `component.<field>` reads the primary component itself: its type tag, its
    first selection and that selection's endpoints and numbers, and the whole
    selection list.
  - Anything else is read verbatim from the context map.

The answer `null` ("a known property with no value now") is kept apart from
`undefined` ("no binding"). Every `resource.*` and `component.*` expression is
`null` when there is no component. The seven selection expressions
(`component.selection`, `component.selection.start`, `component.selection.end`,
`component.selection.start.line`, `component.selection.start.character`,
`component.selection.end.line`, `component.selection.end.character`) are `null`
when the component has no selection. `undefined` comes only from the
plain context lookup.

The implementation file `context.ts` is not part of this model. The behaviour
modelled here is the one that `context.test.ts` fixes, and each of its
scenarios appears as a lemma in `ContextExamples`.

Files:
- `context_types.dfy`: the value type, with distinct `Null` and `Undefined`, and the model, document, selection and settings snapshots.
- `context_update.dfy`: the merge, with an entry-by-entry reference definition and the lemmas relating them.
- `uri_paths.dfy`: basename, dirname and extname of a uri.
- `context_expressions.dfy`: expressions parsed into tagged paths, with a render/parse round trip.
- `computed_property.dfy`: the resolver and its properties.
- `context_examples.dfy`: the test scenarios.

Expressions are parsed once into a closed set of tagged paths (`Expr`).
`Render` gives back the expression string. For instance,
`Render(Component(PrimarySelection(Leaf(Start, Line))))` is
`component.selection.start.line`. The lemmas state their facts over `Render(…)`
of a tagged path, and the field-name tables `ResourceFieldName` and
`ComponentFieldName` spell out each name.

## Model

| member | source | states |
|---|---|---|
| `ContextUpdate.ApplyContextUpdate` | shared/src/api/client/context/context.test.ts:9-17 | an update key with `null` is absent from the result; an update key with any other value maps to that value, whatever the base held (value, `null` or nothing); a key the update does not mention is present iff it was in the base, with the base's value (so `e: null` survives) |
| `ContextUpdate.ApplyEntry` | shared/src/api/client/context/context.test.ts:11-16 | one update entry: a `null` deletes its key, any other value is stored, and every other key keeps its entry |
| `ContextUpdate.ApplyEntriesIsMerge` | shared/src/api/client/context/context.test.ts:11-16 | setting or deleting the update's entries one at a time, in any order and with repeats, gives the pointwise merge of those entries (by induction over the key list) |
| `ContextUpdate.ApplyEntriesInAnyOrder` | shared/src/api/client/context/context.test.ts:11-16 | visiting every key of the update in any order gives exactly `ApplyContextUpdate(base, update)`, so the entry order of the update does not matter |
| `ContextUpdate.ComposeUpdates` | shared/src/api/client/context/context.test.ts:9-17 | applying two updates in turn equals applying their union, with the later update winning on shared keys |
| `ContextUpdate.EntryIsSingletonUpdate` | shared/src/api/client/context/context.test.ts:11-16 | a single entry acts as the update that mentions only its key |
| `ContextUpdate.UpdateIdempotent` | shared/src/api/client/context/context.test.ts:9-17 | applying the same update twice gives the same context as applying it once |
| `ContextUpdate.EmptyUpdateIsIdentity` | shared/src/api/client/context/context.test.ts:9-17 | an empty update returns the base unchanged |
| `ContextUpdate.NullEntriesComeFromBase` | shared/src/api/client/context/context.test.ts:11-16 | a `null` in the result is a base entry the update left alone, never one the update brought |
| `UriPaths.LastIndexOf` | shared/src/api/client/context/context.test.ts:57-71 | the result is -1 iff the character does not occur; otherwise the character is at that index and does not occur after it |
| `UriPaths.Basename` | shared/src/api/client/context/context.test.ts:57-61 | the basename is the longest slash-free tail of the uri: it has no `/`, it is a suffix, and the character before it is a `/` |
| `UriPaths.Dirname` | shared/src/api/client/context/context.test.ts:62-66 | when the uri has a `/`, dirname + `/` + basename is the uri; without a `/`, dirname is empty and the basename is the whole uri |
| `UriPaths.SuffixFromLast` | shared/src/api/client/context/context.test.ts:67-71 | the suffix from the last occurrence of a character is empty iff the character does not occur; otherwise it starts with that character and has no other occurrence of it |
| `UriPaths.Extname` | shared/src/api/client/context/context.test.ts:67-71 | the extension is a tail of the basename; it is empty iff the basename has no `.`; otherwise it starts with the basename's last `.` and has no other `.` |
| `UriPaths.BasenameIdempotent` | shared/src/api/client/context/context.test.ts:57-61 | the basename of a basename is itself |
| `UriPaths.SplitAtLastSlash` | shared/src/api/client/context/context.test.ts:57-66 | for any directory and slash-free name, the basename of `dir/name` is `name` and the dirname is `dir` |
| `ContextExpressions.ParseResourceField` | shared/src/api/client/context/context.test.ts:51-81 | a name parses to a resource field exactly when it is that field's name; the unrecognised names are exactly those that are no field's name |
| `ContextExpressions.ResourceFieldNameParses` | shared/src/api/client/context/context.test.ts:51-81 | every resource field's name parses back to that field |
| `ContextExpressions.ParseComponentField` | shared/src/api/client/context/context.test.ts:90-208 | a name parses to a component field (type, selections, selection, its start/end, their line/character) exactly when it is that field's name |
| `ContextExpressions.ComponentFieldNameParses` | shared/src/api/client/context/context.test.ts:90-208 | every component field's name parses back to that field |
| `ContextExpressions.Parse` | shared/src/api/client/context/context.test.ts:19-221 | parsing loses nothing: rendering the parsed expression gives the input back, and the result is well formed; an expression starts with `config.`, `resource.` or `component.` iff it parses to the matching kind |
| `ContextExpressions.ParseRender` | shared/src/api/client/context/context.test.ts:19-221 | every well-formed tagged expression is what parsing its rendering yields, so parsing and rendering are inverse bijections |
| `ContextExpressions.PrefixesExclusive` | shared/src/api/client/context/context.test.ts:19-221 | no expression starts with two of the three prefixes, so the dispatch order does not matter |
| `ComputedProperty.ConfigValue` | shared/src/api/client/context/context.test.ts:20-33 | a config lookup is never `undefined`: it is the stored settings value when there is one, `null` otherwise |
| `ComputedProperty.ResourceValue` | shared/src/api/client/context/context.test.ts:51-81 | every resource field of a present document is a string |
| `ComputedProperty.SelectionValue` | shared/src/api/client/context/context.test.ts:103-136 | every part of a present selection is a value, never `null` or `undefined` |
| `ComputedProperty.ComponentValue` | shared/src/api/client/context/context.test.ts:90-208 | a field of a present component is never `undefined`; it is `null` exactly when a selection field is asked of a component with no selection |
| `ComputedProperty.GetComputedContextProperty` | shared/src/api/client/context/context.test.ts:19-221 | the result is `undefined` iff the expression falls back to the plain lookup and the context has no binding for it; a fallback expression gives the verbatim context value; a `config.` expression is never `undefined`; without a component every `resource.`/`component.` expression is `null` |
| `ComputedProperty.ConfigUsesLiteralKey` | shared/src/api/client/context/context.test.ts:20-33 | `config.<key>` gives the settings value stored under the whole remainder as one key (so `config.a.b` reads the key `a.b`); a missing key gives `null` |
| `ComputedProperty.NoComponentMeansNull` | shared/src/api/client/context/context.test.ts:83-101 | with no visible component, every `resource.<name>` and `component.<name>` expression is `null` |
| `ComputedProperty.ResourceFieldValue` | shared/src/api/client/context/context.test.ts:51-81 | with a component present, each known `resource.<field>` expression reads that field of the first component's document |
| `ComputedProperty.ResourceUriLanguageType` | shared/src/api/client/context/context.test.ts:51-81 | `resource.uri` and `resource.language` are the primary document's uri and language id; `resource.type` is the constant "textDocument" |
| `ComputedProperty.ResourcePathFields` | shared/src/api/client/context/context.test.ts:57-71 | `resource.basename`, `resource.dirname` and `resource.extname` are the uri's basename, dirname and extname |
| `ComputedProperty.DirnameAndBasenameRebuildUri` | shared/src/api/client/context/context.test.ts:57-66 | when the uri has a `/`, `resource.dirname` + `/` + `resource.basename` is `resource.uri` |
| `ComputedProperty.ComponentTypeAndSelections` | shared/src/api/client/context/context.test.ts:90-148 | `component.type` is the primary component's type tag and `component.selections` its whole selection list |
| `ComputedProperty.PrimarySelectionFields` | shared/src/api/client/context/context.test.ts:103-136 | `component.selection` is the first selection; `.start`/`.end` are its endpoints and `.start.line`, `.start.character`, `.end.line`, `.end.character` their numbers |
| `ComputedProperty.PrimarySelectionField` | shared/src/api/client/context/context.test.ts:103-136 | with a selection present, each of the seven selection expressions reads its part of the first component's first selection |
| `ComputedProperty.NoSelectionMeansNull` | shared/src/api/client/context/context.test.ts:150-208 | with no component, or a component with no selection, each of the seven selection expressions (`component.selection`, its `.start`/`.end`, and their `.line`/`.character`) is `null`, not `undefined` |
| `ComputedProperty.UnknownFieldIsLookup` | shared/src/api/client/context/context.test.ts:218-221 | with a component present, a `resource.`/`component.` expression with an unknown field is read verbatim from the context map |
| `ComputedProperty.PlainExpressionIsLookup` | shared/src/api/client/context/context.test.ts:210-221 | an expression without any of the three prefixes is read verbatim from the context map |
| `ContextExamples.MergesProperties` | shared/src/api/client/context/context.test.ts:9-17 | merging `{a:null, b:1, c:3}` into `{a:1, b:null, c:2, d:3, e:null}` gives `{b:1, c:3, d:3, e:null}` |
| `ContextExamples.ProvidesConfig` | shared/src/api/client/context/context.test.ts:20-33 | with settings `{a:1, 'a.b':2, 'c.d':3}`: `config.a` is 1, `config.a.b` is 2, `config.c.d` is 3, `config.x` is `null` |
| `ContextExamples.TestUriSplits` | shared/src/api/client/context/context.test.ts:57-66 | `file:///a/b.c` has basename `b.c` and dirname `file:///a` |
| `ContextExamples.TestUriExtension` | shared/src/api/client/context/context.test.ts:67-71 | `file:///a/b.c` has extname `.c` |
| `ContextExamples.ProvidesResourceUriLanguageType` | shared/src/api/client/context/context.test.ts:51-81 | for the test editor: `resource.uri` is `file:///a/b.c`, `resource.language` is `l`, `resource.type` is `textDocument` |
| `ContextExamples.ProvidesResourcePathFields` | shared/src/api/client/context/context.test.ts:57-71 | for the test editor: `resource.basename` is `b.c`, `resource.dirname` is `file:///a`, `resource.extname` is `.c` |
| `ContextExamples.NullWithoutComponent` | shared/src/api/client/context/context.test.ts:83-101 | with no component, `resource.uri` and `component.type` are `null` |
| `ContextExamples.ProvidesComponentTypeAndSelections` | shared/src/api/client/context/context.test.ts:90-148 | for the test editor: `component.type` is `textEditor` and `component.selections` is the one selection (1,2)-(3,4) |
| `ContextExamples.ProvidesPrimarySelection` | shared/src/api/client/context/context.test.ts:103-136 | for the test editor: the primary selection is (1,2)-(3,4), not reversed, with the listed endpoints and numbers |
| `ContextExamples.NullWithoutSelection` | shared/src/api/client/context/context.test.ts:150-208 | for an editor with no selection and for no component, each of the seven selection expressions (`component.selection`, `.start`, `.end`, `.start.line`, `.start.character`, `.end.line`, `.end.character`) is `null` |
| `ContextExamples.OutOfBoundsSelectionIsUndefined` | shared/src/api/client/context/context.test.ts:210-214 | `get(component.selections, 1)` is `undefined`: it is a plain key, and the context does not bind it |
| `ContextExamples.FallsBackToContext` | shared/src/api/client/context/context.test.ts:218-221 | a plain key reads the context map: `x` in `{x:1}` is 1, `y` in `{}` is `undefined` |

## Left out

- The implementation file `context.ts` is not part of this model. Behaviour that the test file does not pin down is a modelling choice, listed below.
- `UnknownFieldIsLookup`: an unknown `resource.`/`component.` field with a component present falls back to the plain context lookup. `context.test.ts` has no scenario for this; the model assumes a field switch without a default branch.
- `ConfigUsesLiteralKey`: `config.<rest>` is a lookup of the whole remainder as one literal key. A search over shorter or longer dotted keys is not modelled, because the test cases fix only the literal-key lookup. A settings value stored as `undefined` also reads as `null`.
- `UriPaths.Basename`, `UriPaths.Dirname`, `UriPaths.Extname`: these are the plain split at the last `/` and at the basename's last `.`. Path-library edge cases are not modelled: trailing slashes, a name that starts with `.`, and a `.` dirname for a path without `/`. For a uri without `/`, the model's dirname is empty.
- The error branch of the settings cascade and its `subjects` list are not modelled. Neither appears in the scenarios of `context.test.ts`.
- The document text and the other model fields are not modelled, because nothing asserted reads them.
- The extension-host `Position`/`Selection` classes and their `toPlain()` conversion are not modelled. Only the plain `{start, end, isReversed}` form is used.
- Numbers are integers; JavaScript's floating-point numbers are not modelled.
- A value is a scalar, a position, a selection or a selection list. Objects and arrays are not modelled, so a `config.<key>` whose settings value is a JSON object or array cannot be expressed. None of the asserted scenarios reads one.
- Other `component.selection.*` strings, `component.selection.isReversed` among them, are not among the seven known selection expressions. With a component present they fall back to the plain context lookup, as `UnknownFieldIsLookup` states, and are `undefined` when the context does not bind them.
- The evaluator of the `get(...)` function syntax is a separate expression language. It is not modelled: the resolver sees `get(component.selections, 1)` only as a plain key.
- Insertion order of object keys is not modelled: contexts are unordered maps.
