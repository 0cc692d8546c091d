# Model paths of backbone.modelbinding, in Dafny

backbone.modelbinding binds views to Backbone models through *model
paths*: strings such as `manufacturer.name`, `reviews[1].title` or
`[1].title` that name a value reachable from a target model or
collection. A path is parsed into a list of expressions
(`attributeAccess` and `collectionItemAccess` nodes). Folding that list
gives a chain of accessors (`RootAccessor`, then one `AttrAccessor` or
`CollectionItemAccessor` per node). An accessor can:

- `get` the value by walking the chain;
- `bindToTarget`: subscribe to the Backbone events (`change:<name>` on a
  model, `add`/`remove`/`reset` on a collection) that may change the value;
- `set` the value (later `modelAccess` accessor only).

A change tracker (`AttrBinder` in `ModelAttrAccessor`; `changeTrackerFor`
in `modelAccess`) caches the value. When it is notified, it re-reads the
value, emits `change` when the new value is not `===` the cached one, then
drops and rebuilds its subscriptions.

The project covers two dialects:

- the inline `ModelAttrAccessor` module, modelled from its code;
- the later `Backbone.ModelBinding.modelAccess`, modelled from the
  behaviour its tests assert. The `modelAccess` implementation file is
  not part of this model.

The dialects differ in three places:

- `modelAccess` does not accept whitespace inside `[ ]`;
- `modelAccess` also reads models' own properties, plain objects' fields
  and the `length` of arrays and collections;
- only `modelAccess` can `set`.

Modules:

- `Results`: `Result`/`Option`; they stand for thrown errors.
- `ObjectGraph`: JavaScript values and the object graph of models,
  collections, plain objects and arrays. Also mutations, the Backbone
  event each one fires, and the locations each one reads or writes.
- `PathSyntax`: the grammar as recursive functions over the text and a
  position, with parser properties such as round trip, rejection classes,
  soundness and the dialect difference.
- `PathParser`: the parser as the source writes it. A class holds `text`
  and `index`, with one method and loop per grammar rule. Each method is
  proved to compute the matching `PathSyntax` function.
- `Accessor`: the accessor chain with `get`, `bindToTarget` and `set`,
  and the properties of the chain: the frame of `get`, the completeness
  of the bindings, and set-then-get.
- `ChangeTracking`: the shared event registry (`Hub`) and the tracker
  class (`Tracker`), whose methods update the cache, the emitted events
  and the subscriptions in place.
- `Scenarios` and `TrackingScenarios`: the repository's test cases,
  stated and proved on any graph laid out as the tests lay it out. Both
  test files share one layout (`IsSharedFixture`); the modelAccess tests add
  tags, an own property, an address and phones (`IsAccessFixture`).

## Model

| member | source | states |
|---|---|---|
| ObjectGraph.AtAfterDelete | spec/javascripts/modelAttrAccessor.spec.js:471-474 | after `collection.remove` at position p, `at(i)` is unchanged for i < p and is the former `at(i + 1)` for every i >= p; removing past the end changes nothing |
| ObjectGraph.AtAfterInsert | spec/javascripts/modelAttrAccessor.spec.js:476-482 | after an `add` landing at position p (the end when p is past it), `at(i)` is unchanged before p, is the new model at p, and is the former `at(i - 1)` after p |
| ObjectGraph.Assigned | spec/javascripts/modelAccess.spec.js:174-176 | assigning `array[i]` puts v at i and keeps every other element; an index past the end grows the array, with undefined in the gap |
| ObjectGraph.ModelWriteEffect | spec/javascripts/modelAccess.spec.js:145-164 | setting an attribute changes that attribute and not the property of the same name, and the other way round |
| ObjectGraph.ModelUnsetEffect | spec/javascripts/modelAccess.spec.js:303-306 | `unset` leaves the attribute undefined and the property of that name unchanged |
| ObjectGraph.UnwrittenUnchanged | spec/javascripts/modelAttrAccessor.spec.js:143-153 | a mutation changes nothing outside the one location it writes |
| ObjectGraph.SilentMutationChangesNothing | spec/javascripts/modelAttrAccessor.spec.js:449-453 | a Backbone mutation that fires no event (such as a set to an equal value) changes nothing |
| ObjectGraph.ChangeIsFired | spec/javascripts/modelAttrAccessor.spec.js:143-182 | a Backbone mutation that changes a location fires an event on its owner: `change:<name>` for an attribute, a collection event for a collection's items |
| PathSyntax.Scan | spec/javascripts/modelAttrAccessor.spec.js:85-91 | the loops of `white`, `integer` and `name` stop at the first character outside their class, and every character they pass is in it |
| PathSyntax.ScanIs | spec/javascripts/modelAttrAccessor.spec.js:71-73 | that stopping point is unique: any j bounding a run of the class is where the scan stops |
| PathSyntax.NatToString | spec/javascripts/modelAttrAccessor.spec.js:42 | the index text `"[" + number + "]"` prints the number in canonical decimal: digits only, no leading zero |
| PathSyntax.ValueOfPrinted | spec/javascripts/modelAttrAccessor.spec.js:53 | `+string` of the printed number gives the number back |
| PathSyntax.PrintedOfValue | spec/javascripts/modelAttrAccessor.spec.js:53 | printing the value of a canonical digit string gives the string back |
| PathSyntax.CanonicalValuePositive | spec/javascripts/modelAttrAccessor.spec.js:44-55 | a canonical digit string that does not start with 0 has a value of at least 1 |
| PathSyntax.Pad | spec/javascripts/modelAttrAccessor.spec.js:38-40 | in `ModelAttrAccessor` the padding skipped inside `[ ]` is the whole whitespace run there, stopping at the first non-blank character or the end; `modelAccess` skips nothing |
| PathSyntax.ItemAccess | spec/javascripts/modelAttrAccessor.spec.js:35-43 | `collectionItemAccess` consumes at least the `[` and stays within the text |
| PathSyntax.AttrAccess | spec/javascripts/modelAttrAccessor.spec.js:56-64 | `attributeAccess` consumes at least one character and stays within the text |
| PathSyntax.Expression | spec/javascripts/modelAttrAccessor.spec.js:27-34 | `expression` consumes at least one character and stays within the text |
| PathSyntax.Chain | spec/javascripts/modelAttrAccessor.spec.js:15-26 | when `expressionChain` succeeds it has consumed the whole text |
| PathSyntax.Continue | spec/javascripts/modelAttrAccessor.spec.js:20-21 | what follows an expression, when accepted, runs to the end of the path (whitespace before more path is refused, as `WhitespaceInMiddleRejected` states) |
| PathSyntax.Parse | spec/javascripts/modelAttrAccessor.spec.js:93-103 | every parse error lies within the path and is never the "Unrecognised syntax" fault: that check cannot fire |
| PathSyntax.ChainErrorBounded | spec/javascripts/modelAttrAccessor.spec.js:15-26 | every error the chain reports lies within the path and is not the leftover-input fault |
| PathSyntax.ContinueErrorBounded | spec/javascripts/modelAttrAccessor.spec.js:17-24 | the same for the rest of the chain after an expression |
| PathSyntax.ParseRendered | spec/javascripts/modelAttrAccessor.spec.js:15-26 | round trip: any sequence of nodes the parser can produce, rendered as their `text` with any whitespace around the whole, parses back to exactly those nodes (the empty path gives no nodes) |
| PathSyntax.ParseTexts | spec/javascripts/modelAttrAccessor.spec.js:35-63 | round trip from the path: a path that parses, has no whitespace and no index with a leading zero is exactly the concatenation of its nodes' `text` |
| PathSyntax.ChainTexts | spec/javascripts/modelAttrAccessor.spec.js:15-26 | over such a path, the nodes the chain reads from any position concatenate to the text from there to the end |
| PathSyntax.ExpressionText | spec/javascripts/modelAttrAccessor.spec.js:27-63 | over such a path, each expression's `text` is the slice it consumed (`"[" + number + "]"` prints the digits back) |
| PathSyntax.ParseSound | spec/javascripts/modelAttrAccessor.spec.js:27-64 | every parse result is well formed (valid names, canonical `text`, a dot before every later attribute), and parsing its rendering gives it back |
| PathSyntax.ExpressionSound | spec/javascripts/modelAttrAccessor.spec.js:27-64 | every node `expression` returns has a valid name and canonical `text` |
| PathSyntax.ChainSound | spec/javascripts/modelAttrAccessor.spec.js:15-26 | every chain result is well formed from its first node |
| PathSyntax.ContinueSound | spec/javascripts/modelAttrAccessor.spec.js:17-24 | every continuation result is well formed as a sequence of later nodes |
| PathSyntax.ChainOverRendered | spec/javascripts/modelAttrAccessor.spec.js:15-26 | over rendered well-formed nodes followed by a non-name character, the chain yields those nodes, then whatever follows |
| PathSyntax.ChainToEnd | spec/javascripts/modelAttrAccessor.spec.js:17-24 | rendered nodes followed only by whitespace give a chain of exactly those nodes |
| PathSyntax.ParseOfChain | spec/javascripts/modelAttrAccessor.spec.js:93-103 | a chain that consumes the whole path after leading whitespace is the parse result |
| PathSyntax.BadStartRejected | spec/javascripts/modelAttrAccessor.spec.js:65-69 | a path whose first non-blank character is neither `[`, a letter nor `_` fails at that character with the bad-name fault |
| PathSyntax.WhitespaceInMiddleRejected | spec/javascripts/modelAttrAccessor.spec.js:20-21 | whitespace between valid nodes and more path fails with the whitespace fault, at the first character after the whitespace |
| PathSyntax.DotWithoutNameRejected | spec/javascripts/modelAttrAccessor.spec.js:56-69 | a dot not followed by a name start (a trailing dot included) fails just after the dot |
| PathSyntax.IndexWithoutNumberRejected | spec/javascripts/modelAttrAccessor.spec.js:44-52 | a `[`, first or after valid nodes, not followed by a digit (after padding in `ModelAttrAccessor`) fails with "Expected a positive number" at that character, or at the end when the path stops there |
| PathSyntax.IndexUnclosedRejected | spec/javascripts/modelAttrAccessor.spec.js:37-41 | in an index, first or after valid nodes, digits followed by anything but `]` fail with "Expected ']'" at that character, or at the end when the path stops there |
| PathSyntax.LenientIndexPadding | spec/javascripts/modelAttrAccessor.spec.js:35-43 | `ModelAttrAccessor` accepts any whitespace either side of an index number, first or after valid nodes, and yields the same node as the unpadded index |
| PathSyntax.StrictIndexPadding | spec/javascripts/modelAccess.spec.js:77-83 | `modelAccess` rejects any index with whitespace inside its brackets, first or after valid nodes |
| PathSyntax.ParseAfterNodes | spec/javascripts/modelAttrAccessor.spec.js:15-26 | after valid nodes, the parse is those nodes followed by the continuation's nodes, or the continuation's error |
| PathParser.Parser.constructor | spec/javascripts/modelAttrAccessor.spec.js:91 | the parser's `text` and `index` start empty and at 0, before a path is given; `api` fixes the dialect for every later rule |
| PathParser.Parser.Next | spec/javascripts/modelAttrAccessor.spec.js:76-84 | `next(expected)` fails at `index` when the current character is not the expected one; otherwise it returns that character and advances by one |
| PathParser.Parser.White | spec/javascripts/modelAttrAccessor.spec.js:85-91 | `white()` advances to where the whitespace run ends and returns the characters skipped |
| PathParser.Parser.Integer | spec/javascripts/modelAttrAccessor.spec.js:44-55 | `integer()` reads the run of digits as its decimal value, and with no digit fails at `index` |
| PathParser.Parser.Name | spec/javascripts/modelAttrAccessor.spec.js:65-75 | `name()` fails unless a letter or `_` comes first; it then returns the longest run of name characters and stops after it |
| PathParser.Parser.AttributeAccess | spec/javascripts/modelAttrAccessor.spec.js:56-64 | the method computes `PathSyntax.AttrAccess`: the same node and end position, or the same error |
| PathParser.Parser.CollectionItemAccess | spec/javascripts/modelAttrAccessor.spec.js:35-43 | the method computes `PathSyntax.ItemAccess` for its dialect |
| PathParser.Parser.Expression | spec/javascripts/modelAttrAccessor.spec.js:27-34 | the method computes `PathSyntax.Expression` |
| PathParser.Parser.ExpressionChain | spec/javascripts/modelAttrAccessor.spec.js:15-26 | the `while (current)` loop that pushes nodes computes `PathSyntax.Chain` from the first non-blank position: the same nodes ending at the text's end, or the same error |
| PathParser.Parser.Parse | spec/javascripts/modelAttrAccessor.spec.js:93-103 | the parser's entry point returns exactly `PathSyntax.Parse(path)` |
| Accessor.NodesOfFold | spec/javascripts/modelAttrAccessor.spec.js:198-206 | the fold in `buildAccessor` appends one link per expression, in order |
| Accessor.FoldSnoc | spec/javascripts/modelAttrAccessor.spec.js:200-203 | folding one more expression wraps the accessor built so far |
| Accessor.FoldOfNodes | spec/javascripts/modelAttrAccessor.spec.js:198-206 | accessors and expression lists correspond one to one: folding an accessor's own nodes rebuilds it |
| Accessor.AccessorFor | spec/javascripts/modelAttrAccessor.spec.js:247-250 | `accessorFor(path)` fails exactly when parsing fails, with the parser's error; otherwise its links are the parsed nodes |
| Accessor.BindingsDefined | spec/javascripts/modelAttrAccessor.spec.js:143-153 | whenever `get` succeeds, `bindToTarget` does; a link binds exactly when its parent resolves |
| Accessor.BindingsShape | spec/javascripts/modelAttrAccessor.spec.js:143-182 | at most one binding per link: `change:<name>` on a model or `add`, `remove`, `reset` on a collection; the root binds nothing |
| Accessor.ResolveFrame | spec/javascripts/modelAttrAccessor.spec.js:131-168 | one link's `get` depends only on the locations it reads |
| Accessor.GetFrame | spec/javascripts/modelAttrAccessor.spec.js:131-168 | a graph that agrees on what a chain reads gives the same value and the same read set |
| Accessor.GetUnaffected | spec/javascripts/modelAttrAccessor.spec.js:131-168 | a mutation that writes nothing the chain reads leaves `get` unchanged |
| Accessor.NotifiesConcat | spec/javascripts/modelAttrAccessor.spec.js:151-152 | own bindings followed by the parent's hear exactly what either part hears |
| Accessor.OwnStepUnheard | spec/javascripts/modelAttrAccessor.spec.js:143-182 | a Backbone mutation that a link's own binding does not hear leaves that link's step unchanged |
| Accessor.ModelStepUnheard | spec/javascripts/modelAttrAccessor.spec.js:143-153 | an unheard mutation leaves the model's attribute and property of that name as they were |
| Accessor.CollStepUnheard | spec/javascripts/modelAttrAccessor.spec.js:169-182 | an unheard mutation leaves the collection's items as they were |
| Accessor.UnheardKeepsChain | spec/javascripts/modelAttrAccessor.spec.js:221-227 | a Backbone mutation that no current binding hears changes neither the value nor the bindings |
| Accessor.ChangeIsHeard | spec/javascripts/modelAttrAccessor.spec.js:143-182 | completeness of `bindToTarget`: a Backbone mutation that changes the chain's value fires an event one of its bindings hears |
| Accessor.SetThenGet | spec/javascripts/modelAccess.spec.js:44-48 | after `set(target, v)`, `get(target)` is v at any depth, provided the write does not disturb what the parent chain reads |
| Accessor.StepReadsBack | spec/javascripts/modelAccess.spec.js:44-48 | what `set` writes below a parent value is what `get` then reads there |
| Accessor.SetModelName | spec/javascripts/modelAccess.spec.js:145-164 | setting a name on a model writes the attribute, unless the model lacks it and has a non-function property of that name, in which case it writes the property; the other slot is untouched |
| Accessor.SetIndex | spec/javascripts/modelAccess.spec.js:208-225 | assigning an index of a collection fails; on an array it writes that element and keeps every other |
| ChangeTracking.OfAppend | spec/javascripts/modelAttrAccessor.spec.js:235-236 | the notices an owner is subscribed to, over two registries appended, are the two lists appended |
| ChangeTracking.OfWithout | spec/javascripts/modelAttrAccessor.spec.js:238-240 | unbinding an owner leaves it no subscriptions and every other owner's unchanged |
| ChangeTracking.OfTagged | spec/javascripts/modelAttrAccessor.spec.js:235-236 | newly bound notices belong to their owner alone |
| ChangeTracking.FlattenHears | spec/javascripts/modelAttrAccessor.spec.js:188-194 | subscribing to the flattened bindings hears exactly what the bindings hear |
| ChangeTracking.Hub.constructor | spec/javascripts/modelAttrAccessor.spec.js:269-281 | a registry over a graph with no subscriptions |
| ChangeTracking.Hub.BindAll | spec/javascripts/modelAttrAccessor.spec.js:175-177 | `bind` for each notice appends the tagged subscriptions and leaves the graph |
| ChangeTracking.Hub.UnbindOwner | spec/javascripts/modelAttrAccessor.spec.js:189-193 | removes exactly that owner's subscriptions and keeps the others in order |
| ChangeTracking.Hub.Perform | spec/javascripts/modelAttrAccessor.spec.js:396-399 | a mutation updates the graph and returns the event Backbone fires for it |
| ChangeTracking.Tracker.constructor | spec/javascripts/modelAttrAccessor.spec.js:213-219 | `AttrBinder` caches the value and binds to the chain's targets: it ends in sync and valid, no event emitted, other owners untouched |
| ChangeTracking.Tracker.GetValue | spec/javascripts/modelAttrAccessor.spec.js:241-243 | `getValue()` re-reads through the chain on the current graph |
| ChangeTracking.Tracker.HasValue | spec/javascripts/modelAccess.spec.js:299-306 | `hasValue()` is true exactly when the current value is defined; it fails when the read does |
| ChangeTracking.Tracker.Change | spec/javascripts/modelAttrAccessor.spec.js:221-234 | `change()` emits the re-read value exactly when it is not the cached one, caches it, and rebuilds the bindings on the current graph; a failing read changes nothing |
| ChangeTracking.Tracker.Hear | spec/javascripts/modelAttrAccessor.spec.js:235-236 | a notice runs `change()` exactly when one of the current bindings hears it, and otherwise changes nothing; when the re-read throws, the cache, the bindings and the registry stay as they were; other trackers' subscriptions are always kept |
| ChangeTracking.Tracker.Step | spec/javascripts/modelAttrAccessor.spec.js:221-240 | for a Backbone mutation from an in-sync tracker whose chain the bindings cover (in modelAccess, a chain that reads no `length`), `change` is emitted exactly when the value moved, and the tracker ends in sync with rebuilt bindings; when the re-read throws, only the graph changes; a mutation it does not hear changes nothing of it; other trackers' subscriptions are always kept |
| ChangeTracking.Tracker.SetValue | spec/javascripts/modelAccess.spec.js:294-297 | `setValue(v)` applies the write `set` makes at the chain as it currently resolves, or fails with its error and changes nothing (graph, cache, bindings, registry, events); other trackers' subscriptions are always kept |
| ChangeTracking.Create | spec/javascripts/modelAttrAccessor.spec.js:251-255 | `attrBinderFor`/`changeTrackerFor` fails with the syntax error or the first read's error; otherwise it returns a fresh tracker in sync on that accessor; on failure the registry is untouched, and on success every other tracker's subscriptions are kept, so trackers created one after another all stay valid |
| Scenarios.NameAccessor | spec/javascripts/modelAttrAccessor.spec.js:328-334 | `"name"`, `"  name"` and `"name  "` give the same one-link accessor, in both dialects |
| Scenarios.PaddedIndexAccessor | spec/javascripts/modelAttrAccessor.spec.js:344-346 | `ModelAttrAccessor` reads `"reviews[ 1 ].title"` as `reviews[1].title` |
| Scenarios.IllegalAttrName | spec/javascripts/modelAttrAccessor.spec.js:296-298 | `"9asdf"` fails at 0 with the bad-name fault |
| Scenarios.WhitespaceInMiddle | spec/javascripts/modelAttrAccessor.spec.js:300-302 | `"reviews name"` fails at 8 with the whitespace fault |
| Scenarios.LettersInIndex | spec/javascripts/modelAttrAccessor.spec.js:304-314 | `"reviews[asdf]"` and `"reviews[asd0]"` fail at 8 for want of a number |
| Scenarios.EndAfterBracket | spec/javascripts/modelAttrAccessor.spec.js:44-52 | `"reviews["` fails at 8 expecting a number, in both dialects |
| Scenarios.EndAfterNumber | spec/javascripts/modelAttrAccessor.spec.js:35-41 | `"reviews[0"` fails at 9 expecting `]`, in both dialects |
| Scenarios.LettersInFirstIndex | spec/javascripts/modelAttrAccessor.spec.js:44-52 | `"[x]"`, an index in first position, fails at 1 expecting a number |
| Scenarios.LettersAfterIndex | spec/javascripts/modelAttrAccessor.spec.js:308-310 | `"reviews[0ddf]"` fails at 9 expecting `]` |
| Scenarios.TrailingDot | spec/javascripts/modelAttrAccessor.spec.js:316-318 | `"manufacturer."` fails at 13 with the bad-name fault |
| Scenarios.LeadingDot | spec/javascripts/modelAttrAccessor.spec.js:320-322 | `".manufacturer"` fails at 0 with the bad-name fault |
| Scenarios.LeadingIndexPaddingRefused | spec/javascripts/modelAccess.spec.js:77-79 | `modelAccess` rejects `"reviews[  0]"` at 8 |
| Scenarios.TrailingIndexPaddingRefused | spec/javascripts/modelAccess.spec.js:81-83 | `modelAccess` rejects `"reviews[0  ]"` at 9 |
| Scenarios.AttrFixtureIsShared | spec/javascripts/modelAttrAccessor.spec.js:269-281 | the modelAttrAccessor tests' graph, which has no tags and no own properties, has the shared layout every test needs |
| Scenarios.AccessFixtureIsFixture | spec/javascripts/modelAccess.spec.js:14-34 | the modelAccess tests' graph, with both phones in the first manufacturer's array, has the modelAccess layout |
| Scenarios.GetAttrOfTarget | spec/javascripts/modelAttrAccessor.spec.js:324-334 | `"name"` (whitespace either side allowed) reads "Product 1" in both dialects |
| Scenarios.GetAttrOfNestedModel | spec/javascripts/modelAttrAccessor.spec.js:336-338 | `"manufacturer.name"` reads "Manufacturer 1" |
| Scenarios.GetAttrOfModelInNestedCollection | spec/javascripts/modelAttrAccessor.spec.js:340-342 | `"reviews[1].title"` reads "Review 2" |
| Scenarios.GetWithPaddedIndex | spec/javascripts/modelAttrAccessor.spec.js:344-346 | `"reviews[ 1 ].title"` reads "Review 2" in `ModelAttrAccessor` |
| Scenarios.GetAttrOfModelInTargetCollection | spec/javascripts/modelAttrAccessor.spec.js:348-351 | `"[1].title"` on the collection reads "Review 2" |
| Scenarios.GetNonAttrProperty | spec/javascripts/modelAccess.spec.js:113-115 | `modelAccess` reads the own property `notAnAttr`; `ModelAttrAccessor` reads undefined |
| Scenarios.GetNonModelAttrOfNestedModel | spec/javascripts/modelAccess.spec.js:129-131 | `"manufacturer.address"` reads the address object |
| Scenarios.GetPropertyOfNonModelAttr | spec/javascripts/modelAccess.spec.js:137-139 | `"manufacturer.address.street"` reads the street; `ModelAttrAccessor` throws "not a Backbone model" |
| Scenarios.GetStringInArray | spec/javascripts/modelAccess.spec.js:170-172 | `"tags[1]"` reads "tag2" |
| Scenarios.GetLength | spec/javascripts/modelAccess.spec.js:178-199 | `"tags.length"` and `"reviews.length"` read 3 in `modelAccess` and throw in `ModelAttrAccessor` |
| Scenarios.GetPropertyOfObjectInNestedArray | spec/javascripts/modelAccess.spec.js:215-217 | `"manufacturer.phones[0].number"` reads "0181 123 567" |
| Scenarios.SetAttrOfTarget | spec/javascripts/modelAccess.spec.js:109-111 | setting `"name"` reads back, and is `model.set` of that attribute |
| Scenarios.SetNonAttrProperty | spec/javascripts/modelAccess.spec.js:117-119 | setting `"notAnAttr"` reads back, and assigns the property |
| Scenarios.SetAttrOfNestedModel | spec/javascripts/modelAccess.spec.js:125-127 | setting `"manufacturer.name"` reads back, and sets the manufacturer's attribute |
| Scenarios.SetNonModelAttrOfNestedModel | spec/javascripts/modelAccess.spec.js:133-135 | setting `"manufacturer.address"` to any object reads back |
| Scenarios.SetPropertyOfNonModelAttr | spec/javascripts/modelAccess.spec.js:141-143 | setting `"manufacturer.address.street"` reads back, and assigns the object's field |
| Scenarios.SetNewAttr | spec/javascripts/modelAccess.spec.js:145-149 | a name that is neither attribute nor property becomes an attribute, with no property created |
| Scenarios.SetExistingProperty | spec/javascripts/modelAccess.spec.js:151-156 | an existing non-function property is updated and no attribute appears |
| Scenarios.SetBesideFunctionProperty | spec/javascripts/modelAccess.spec.js:158-164 | beside a function property the value becomes an attribute and the function stays |
| Scenarios.SetStringInArray | spec/javascripts/modelAccess.spec.js:174-176 | setting `"tags[1]"` reads back and replaces only that element |
| Scenarios.SetAttrOfModelInNestedCollection | spec/javascripts/modelAccess.spec.js:193-195 | setting `"reviews[1].title"` reads back, and sets the second review's title |
| Scenarios.SetModelItemInCollectionRefused | spec/javascripts/modelAccess.spec.js:208-213 | setting `"reviews[1]"` fails: a collection's slot cannot be assigned |
| Scenarios.SetPropertyOfObjectInNestedArray | spec/javascripts/modelAccess.spec.js:219-221 | setting `"manufacturer.phones[0].number"` reads back, and assigns the phone's field |
| Scenarios.ReplaceObjectInNestedArray | spec/javascripts/modelAccess.spec.js:223-225 | setting `"manufacturer.phones[0]"` to any object reads back, replaces the first element and keeps the others |
| Scenarios.SetAttrOfModelInTargetCollection | spec/javascripts/modelAccess.spec.js:232-235 | setting `"[1].title"` on the collection reads back, and sets the second review's title |
| TrackingScenarios.AttrSetBelow | spec/javascripts/modelAttrAccessor.spec.js:131-142 | setting the leaf attribute of the model a chain ends on makes the chain read the new value |
| TrackingScenarios.NameAfterUnset | spec/javascripts/modelAccess.spec.js:303-306 | after `unset("name")`, `"name"` reads undefined |
| TrackingScenarios.ManufacturerReplaced | spec/javascripts/modelAttrAccessor.spec.js:431-435 | after pointing `manufacturer` at the second manufacturer, the chain reads its name |
| TrackingScenarios.ThroughSecondManufacturer | spec/javascripts/modelAttrAccessor.spec.js:444-447 | the chain through the second manufacturer binds only it and the product, and reads nothing of the first |
| TrackingScenarios.ManufacturerGone | spec/javascripts/modelAttrAccessor.spec.js:413-429 | with `manufacturer` unset or null, `"manufacturer.name"` reads undefined |
| TrackingScenarios.TitleAfterRemove | spec/javascripts/modelAttrAccessor.spec.js:471-474 | removing the second review makes `reviews[1].title` read the third's title |
| TrackingScenarios.TitleAfterAdd | spec/javascripts/modelAttrAccessor.spec.js:476-482 | a review added at position 1 is what `reviews[1].title` reads |
| TrackingScenarios.Heard | spec/javascripts/modelAttrAccessor.spec.js:228-234 | one heard mutation emits `change` exactly when the value moves, and the tracker stays in sync |
| TrackingScenarios.OpenBeside | spec/javascripts/modelAttrAccessor.spec.js:251-255 | creating a second tracker on the same registry keeps the first one valid, whether or not creation succeeds, and a created one is valid beside it |
| TrackingScenarios.TargetAttrChanged | spec/javascripts/modelAccess.spec.js:289-292 | setting the product's name emits one event, "New Name!" (both dialects) |
| TrackingScenarios.TargetAttrSet | spec/javascripts/modelAccess.spec.js:294-297 | `setValue("New Name!")` leaves the product's `name` at "New Name!" |
| TrackingScenarios.TargetHasValue | spec/javascripts/modelAccess.spec.js:299-306 | `hasValue()` is true, then false after `unset("name")` |
| TrackingScenarios.NestedAttrChanged | spec/javascripts/modelAccess.spec.js:316-319 | setting the manufacturer's name emits one event, "New Name!" |
| TrackingScenarios.NestedAttrSet | spec/javascripts/modelAccess.spec.js:321-324 | `setValue` on `"manufacturer.name"` sets the manufacturer's `name` |
| TrackingScenarios.NestedModelUnset | spec/javascripts/modelAccess.spec.js:326-330 | unsetting `manufacturer` emits exactly one event, undefined |
| TrackingScenarios.NestedModelNulled | spec/javascripts/modelAccess.spec.js:332-341 | setting `manufacturer` to null emits exactly one event, undefined, and `getValue()` is then undefined |
| TrackingScenarios.ParentModelReplaced | spec/javascripts/modelAccess.spec.js:343-359 | replacing the manufacturer emits one event with the new name; the tracker is then bound only to the new manufacturer and the product, and renaming the first emits nothing |
| TrackingScenarios.FirstManufacturerUnheard | spec/javascripts/modelAccess.spec.js:349-359 | once the chain runs through the second manufacturer, renaming the first adds no event and no handler stays on it |
| TrackingScenarios.RenameSecondUnheard | spec/javascripts/modelAccess.spec.js:361-365 | renaming the second manufacturer before the swap is not heard: no event, nothing cached changes |
| TrackingScenarios.EqualReplacement | spec/javascripts/modelAccess.spec.js:361-365 | swapping to a manufacturer with an equal name emits nothing |
| TrackingScenarios.EachTitleChanged | spec/javascripts/modelAccess.spec.js:380-385 | three successive title changes emit three events, in order |
| TrackingScenarios.TitleHeard | spec/javascripts/modelAccess.spec.js:380-385 | one change of the second review's title is emitted when it differs, and the reviews stay in place |
| TrackingScenarios.ItemValue | spec/javascripts/modelAccess.spec.js:387-390 | `getValue()` on `reviews[1].title` is "Review 2" |
| TrackingScenarios.ItemAttrSet | spec/javascripts/modelAccess.spec.js:392-395 | `setValue` sets the second review's title |
| TrackingScenarios.ItemRemoved | spec/javascripts/modelAccess.spec.js:397-400 | removing the second review emits one event with the third's title |
| TrackingScenarios.ItemAdded | spec/javascripts/modelAccess.spec.js:402-408 | adding a review that sorts into position 1 emits one event with its title |

## Left out

- The implementation of `Backbone.ModelBinding.modelAccess` is not part of this model. Its `get`, `set` and tracker are modelled from what its tests assert, and reuse the code of `ModelAttrAccessor` where the tests say nothing. In particular, the bindings are the same, a truthy primitive parent of an attribute is an error, and an index into anything but an array or a collection (undefined and null included) is an error. In `get`, a function-valued parent of an attribute is an error too (`NotAnObject`), like any other truthy value that is not a model, a plain object, an array or a collection. In `set`, the parent of the written slot must be a model or a plain object for an attribute, or an array for an index: a falsy parent, a primitive, a function and an array's or a collection's attribute (`length` included) all fail with `NotAnObject` (`NotACollection` for an index).
- Accessor.SetThenGet: does not cover writing null or undefined, because `model.has` then reports no attribute and `modelAccess` falls back on the property; the tests never write either.
- Accessor.ChangeIsHeard: excludes `modelAccess` chains that read `length` (`LengthFree`). No binding covers an array's or a collection's length, and plain assignments (`SetProp`, `SetField`, `SetElement`) fire no event in Backbone.
- ChangeTracking.Tracker.SetValue: states the write, not the events. Those follow from `Tracker.Step`, which `SetValue` calls, and the tests check the written slot only.
- ChangeTracking.Hub.UnbindOwner: removes one tracker's handlers. `resetExistingBindings` calls `unbindFromTarget()` with no callback, which in Backbone removes every handler of that event on the target.
- The model treats `change` as one atomic step (read, compare, emit, unbind, rebind). Handlers that re-enter during dispatch and several trackers reacting to the same event are not modelled.
- The comparator sort of `ReviewCollection` by `Date`: `add` is an insertion at a given position and `remove` a deletion at a position.
- Numbers are integers: NaN, floating point and `+string` overflow are not modelled. Values are compared with `===`, which for references is identity. `_.isEqual` in the matchers is not modelled.
- Error messages are kept as a fault kind and the 0-based `index` only. The message wording is not modelled.
- `white()` and the name and digit classes are modelled on characters; the empty-string `current` past the end is `None`.
- Backbone and underscore internals (`_callbacks`, `instanceof`, `_.reduce`, `_.detect`) become the registry `Hub`, tagged `Value`s and a fold.
- The convention bindings for text boxes and radio buttons (jQuery/DOM, `render`, `.val()`) only consume the accessor and are not modelled.
- The fixture predicates fix only what the tests read. `IsSharedFixture` leaves codes, dates, tags, own properties, addresses and phones free, since the modelAttrAccessor fixture has none of the last four. `IsAccessFixture` fixes the first phone only and leaves the rest of the array and the second manufacturer's address and phones free. Review dates are not modelled at all (see the comparator above).
- ObjectGraph.Fired: compares the old and new attribute value with `===`, where `Model.set` uses `_.isEqual`. A distinct object deep-equal to the old value fires `change` here, and Backbone fires nothing. Backbone's source is not part of this model, and no test sets such a value.
- ObjectGraph.Apply: `set(name, undefined)` on an absent attribute adds the key without firing, so a later `unset(name)` fires `change:name` here. Backbone may skip that event, because the value does not change. No test unsets an attribute it set to undefined.
- ChangeTracking.Tracker.Step: promises the events only for a chain the bindings cover (`Covered`). In modelAccess that is a chain that reads no `length`, for the reason given under Accessor.ChangeIsHeard.
