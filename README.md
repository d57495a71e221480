# openapi-tool YAML loader in Dafny

A model of the YAML document builder of openapi-tool, and proofs about it.
The builder is the `Loader` of `src/yaml/loader.rs`. The tree it builds is
defined in `src/yaml/model.rs`.

The loader receives parse events one at a time. These are stream start and
end, document start and end, scalar, sequence start and end, mapping start
and end, alias and nothing. It keeps a stack of states:

- The top entry is the current state.
- Each entry below the top is a parent context. It was suspended when a
  sequence or mapping was opened inside it.

Each event does one of three things:

- It replaces the current state.
- It opens a container. `start_block` suspends the current state and puts
  an empty container on top.
- It closes a container. `end_block` pops the parent and folds the
  finished node into it.

Errors are a terminal state. Once the top is an error, every later event
leaves the stack as it is. `get_result` returns the finished document or the
error.

The files:

- `yaml_rust.dfy`: the shapes borrowed from the `yaml_rust` crate. These are
  the scanner's `Marker` and `TScalarStyle`, and the parser's `Event`. An
  anchor id is a `nat`, and 0 means no anchor.
- `model.dfy`: the node types and the `From` conversions for styles and
  positions. It also has `MapNode::contains_key`, and the key-uniqueness
  predicates the loader maintains.
- `loader.dfy`: the loader as a pure transition relation first. `Next` is
  the move of the current state on an event. `Fold` takes a finished child
  into its parent. `Step` is the effect on the whole stack. `Run` feeds a
  sequence of events. The class `Loader` then does the same work in place on
  its `stack` field. `OnEvent` is proved to leave exactly `Step` of the old
  stack, and it keeps the invariant `Valid`.
- `loader_properties.dfy`: the properties of the transition relation. These
  cover stack depth and shape, sticky errors, the order of rejections,
  unique keys, appends in order, the positions given by closing events, and
  nesting depth.
- `loader_examples.dfy`: concrete event runs on a `Loader` object. They
  include the documents of the tests in `src/yaml/mod.rs`. Each run uses
  the event order of the parser in `yaml_rust`:
  - `parse_yaml` asks that parser for one document.
  - The parser stops after that document's `DocumentEnd`.
  - It sends `StreamEnd` only when the input holds no document.

Notes on how the code is modelled:

- A `LinkedHashMap<ScalarNode, Node>` is a list of (key, value) pairs,
  oldest first.
- The hash key of a map is the whole `ScalarNode`: text, position and
  style. The loader, however, rejects any key whose text is already present
  (loader.rs:87). So every `insert` it makes adds a new entry, and the model
  appends. The invariant proves that the text of each pending key is new.
- The `unreachable!()` arms are (state, event) pairs that a well-formed event
  stream never produces. The predicate `Stuck` lists them, and `OnEvent`
  requires that they do not occur.
- The `expect` calls on an empty stack cannot fail, because `Valid` keeps
  the stack non-empty. It also keeps a parent below every open container.
- The `match ev` of `on_event` is the method `Loader.Transition`. It returns
  the new state, and `OnEvent` pushes it, as `on_event` does.

## Model

| member | source | states |
|---|---|---|
| Model.StyleFrom | src/yaml/model.rs:13-23 | The converted style is `Plain` exactly when the scanner style is `Plain` or the catch-all `Any`. |
| Model.StyleFromKeepsNamedStyles | src/yaml/model.rs:15-19 | `SingleQuoted`, `DoubleQuoted` and `Literal` keep their names. The scanner's `Foled` becomes `Folded`. |
| Model.ScannerStyle | src/yaml/model.rs:13-23 | Each of the five styles comes from some scanner style other than `Any`, and `StyleFrom` maps that style back to it. So the conversion is onto. |
| Model.PosFrom | src/yaml/model.rs:32-40 | The position copies the marker's index, line and column unchanged. |
| Model.PosFromInjective | src/yaml/model.rs:32-40 | Two markers give the same position exactly when they are equal. |
| Model.MapNode.ContainsKey | src/yaml/model.rs:64-68 | True exactly when some entry's key has the queried text. Always false on an empty mapping. |
| Model.ContainsKeyIgnoresPosAndStyle | src/yaml/model.rs:64-68 | Each key's own text is found. Replacing the position and style of any key changes the answer to no query. |
| Model.HasKeyText | src/yaml/loader.rs:87 | The duplicate-key search is true exactly when some entry's key has the given text. |
| Model.AppendKeepsKeysUnique | src/yaml/loader.rs:86-95 | Take a map whose key texts are distinct and append an entry whose text is new. The texts stay distinct, and the new key is found. The set of texts found grows by exactly that text. |
| YamlLoader.Next | src/yaml/loader.rs:49-135 | The move the current state makes on an event: <br>• Only a parent state opens a container, and the new container is always empty. <br>• Only a sequence or a mapping waiting for a key closes. <br>• Replacing never turns a non-container into a container. <br>• Replacing a container gives a container or an error. |
| YamlLoader.Stuck | src/yaml/loader.rs:49-135 | The event pairs that reach `unreachable!()`. They never occur in the error state, and never for `Nothing`, `StreamEnd` or an alias. A scalar with an anchor or tag is never one. A container start with an anchor, from a parent or while a key is expected, is never one either. |
| YamlLoader.Enter | src/yaml/loader.rs:142-161 | A container start opens exactly when it has no anchor and the current state is a parent, and it opens the given empty container. Otherwise the result is an error at the start's position. It never closes. |
| YamlLoader.Fold | src/yaml/loader.rs:164-177 | A container parent stays a container, and only the document parent becomes a finished document. A mapping waiting for a value gains one entry and waits for a key again. A sequence gains one item, the folded node, at its end. |
| YamlLoader.Step | src/yaml/loader.rs:41-138 | One event changes the stack depth by at most one, and the stack is never empty. Every entry below the top two is unchanged. In the error state the stack is unchanged. |
| YamlLoader.StepOnTop | src/yaml/loader.rs:41-138 | Write the stack as the suspended entries plus the current state. A replace swaps the current state, an open pushes the child, and a close folds the finished node into the entry just below. |
| YamlLoader.FoldKeepsWellFormed | src/yaml/loader.rs:163-178 | Folding a well-formed child into a well-formed parent keeps key texts distinct. |
| YamlLoader.NextKeepsWellFormed | src/yaml/loader.rs:49-135 | From a well-formed state, every move yields a well-formed state or node. |
| YamlLoader.ReplaceKeepsInvariant | src/yaml/loader.rs:49-111 | Replacing the current state keeps the invariant when the new state is of the same kind, or is an error. |
| YamlLoader.OpenKeepsInvariant | src/yaml/loader.rs:141-161 | Suspending a parent under a new empty container keeps the invariant. |
| YamlLoader.CloseKeepsInvariant | src/yaml/loader.rs:163-178 | Below an open container there is always a parent. Folding the finished container into it keeps the invariant. |
| YamlLoader.StepKeepsInvariant | src/yaml/loader.rs:41-138 | Every event keeps the invariant. The stack stays non-empty, its suspended entries are parents, and all maps have distinct key texts. |
| YamlLoader.ResultOf | src/yaml/loader.rs:180-187 | The result is `Ok` exactly when the top is a finished document, and carries that node. Otherwise it is `Err` with the top's error. |
| YamlLoader.StepKeepsShape | src/yaml/loader.rs:41-138 | Every event keeps the shape of the stack: it stays non-empty, and its suspended entries stay parents with a container or an error on top. |
| YamlLoader.Run | src/yaml/loader.rs:41-138 | Feeding events one by one from a well-shaped stack keeps the shape, and feeding no events changes nothing. |
| YamlLoader.RunKeepsInvariant | src/yaml/loader.rs:41-138 | A run of events that never gets stuck, started from a stack that satisfies the invariant, ends in one that satisfies it. All maps keep distinct key texts. |
| YamlLoader.Loader.constructor | src/yaml/loader.rs:32-38 | A new loader's stack is exactly `[Initial]`, and it is valid. |
| YamlLoader.Loader.OnEvent | src/yaml/loader.rs:41-138 | Pops, transitions and pushes. The new stack is exactly `Step` of the old one, and the loader stays valid. |
| YamlLoader.Loader.Transition | src/yaml/loader.rs:49-135 | The new state is the one `Next` gives. The stack is unchanged for a replace, has the old state pushed for an open, and has the parent popped for a close. |
| YamlLoader.Loader.StartBlock | src/yaml/loader.rs:141-161 | An anchor gives `AnchorNotSupported` and leaves the stack alone. A start while a key is expected gives `KeyNotScalar`. Otherwise the state is pushed and an empty sequence or mapping is returned. |
| YamlLoader.Loader.EndBlock | src/yaml/loader.rs:163-178 | Pops exactly one entry and returns that parent with the node folded in. |
| YamlLoader.Loader.GetResult | src/yaml/loader.rs:180-187 | Returns the finished document or the error on top of the stack. |
| LoaderProperties.StackDepthIsOpenContainers | src/yaml/loader.rs:141-178 | Outside the error state, the stack depth is one plus the number of open containers. In the error state the program breaks this count too, and `ErrorBreaksDepthCount` shows how. |
| LoaderProperties.InitialStack | src/yaml/loader.rs:32-38 | The initial stack satisfies the invariant and has no open container. |
| LoaderProperties.StepChangesDepthByOne | src/yaml/loader.rs:141-178 | An open pushes exactly one entry and a close pops exactly one. A replace keeps the depth. In each case the entries below are unchanged. |
| LoaderProperties.OnlyBlockEventsOpenOrClose | src/yaml/loader.rs:112-134 | Only a sequence or mapping start pushes a container. Only a sequence or mapping end pops one, and every such end that is not stuck does. |
| LoaderProperties.ErrorBreaksDepthCount | src/yaml/loader.rs:44-47 | `[DocumentStarted, Error(e)]` satisfies the invariant, yet its depth is not one plus its open containers. An error raised inside a container keeps that container's parents on the stack. |
| LoaderProperties.SuspendedAreParents | src/yaml/loader.rs:145-176 | Every entry below the top is one that `end_block` can fold into. |
| LoaderProperties.ErrorIsSticky | src/yaml/loader.rs:43-47 | In the error state, no event is stuck and every event leaves the stack unchanged. |
| LoaderProperties.ErrorIsStickyForRuns | src/yaml/loader.rs:43-47 | From the error state, any sequence of events leaves the stack unchanged. The result is that same error. |
| LoaderProperties.ResultIgnoresSuspended | src/yaml/loader.rs:180-187 | With an error on top, the result is that error, whatever is suspended below it. |
| LoaderProperties.AliasAndNothing | src/yaml/loader.rs:49-74 | From any non-error state, an alias replaces the top with `AliasNotSupported` at the event's position. `Nothing` leaves the stack unchanged. |
| LoaderProperties.ScalarRejectionOrder | src/yaml/loader.rs:75-111 | A scalar with an anchor is rejected for the anchor even if it also has a tag. One with only a tag is rejected for the tag. Neither is stuck in any state. |
| LoaderProperties.ContainerStartRejectionOrder | src/yaml/loader.rs:141-161 | A container start with an anchor is rejected for the anchor in every state. Without one, it gives `KeyNotScalar` while a key is expected. From a parent, it opens an empty container. |
| LoaderProperties.KeyScalar | src/yaml/loader.rs:84-92 | A key whose text is already present gives `DuplicateKey`, whatever its position and style. Any other key becomes the pending key, and the entries stay unchanged. |
| LoaderProperties.DuplicateIffContainsKey | src/yaml/loader.rs:86-91 | A key scalar is rejected exactly when `contains_key` on those entries finds its text. |
| LoaderProperties.MapsHaveUniqueKeys | src/yaml/loader.rs:84-97 | Every mapping on the stack has distinct key texts. A pending key's text is not yet present. |
| LoaderProperties.DocumentIsWellFormed | src/yaml/loader.rs:180-187 | A finished document has distinct key texts in every mapping, at every depth. |
| LoaderProperties.ScalarFoldsLikeChild | src/yaml/loader.rs:84-104 | A plain scalar with no anchor or tag is taken in by a parent exactly as a closed child is by `end_block`. |
| LoaderProperties.FoldAppends | src/yaml/loader.rs:163-178 | Folding appends to a sequence at the end and keeps the earlier items. For a mapping it appends the pending key's entry. At document level it finishes the document. |
| LoaderProperties.CloseTakesClosingMark | src/yaml/loader.rs:113-134 | A closed sequence or mapping gets the closing event's position, and is folded into the entry below it. |
| LoaderProperties.StreamEndOutcome | src/yaml/loader.rs:55-65 | `StreamEnd` after `StreamStarted` gives an empty plain scalar document at the mark. In any other non-error state it gives `UnexpectedStreamEnd`. |
| LoaderProperties.RunAppend | src/yaml/loader.rs:41-138 | Feeding two sequences of events one after the other is the same as feeding their concatenation. |
| LoaderProperties.NestedRun | src/yaml/loader.rs:112-123 | From any parent, `n` nested sequence starts around a scalar, followed by `n` ends, fold the `n`-deep tree into that parent. |
| LoaderProperties.NestingDepth | src/yaml/loader.rs:112-123 | A document of `n` nested single-item sequences loads as exactly that tree, whose height is `n`. |
| LoaderExamples.LoadEmptyStream | src/yaml/mod.rs:31-41 | Empty or blank input loads as an empty plain scalar at the end-of-stream mark. |
| LoaderExamples.LoadSimpleScalar | src/yaml/mod.rs:43-47 | `Hello World` loads as that plain scalar. |
| LoaderExamples.LoadSimpleSequence | src/yaml/mod.rs:49-71 | A three-item block sequence loads as a sequence of three scalars, in order. |
| LoaderExamples.LoadDuplicateKey | src/yaml/loader.rs:84-91 | A repeated key text is rejected at the second key's position, though its style differs. Later events keep the error. |
| LoaderExamples.LoadSequenceAsKey | src/yaml/loader.rs:141-161 | A sequence used as a key is rejected at the sequence's start. |
| LoaderExamples.LoadAnchorAndAlias | src/yaml/loader.rs:75-111 | An anchored scalar is rejected before the alias that follows it is seen. |
| LoaderExamples.LoadNestedMapping | src/yaml/loader.rs:124-134 | A mapping inside a sequence keeps its entry and is found by `contains_key`. It is positioned at its closing event. |

## Left out

- `parse_yaml` (src/yaml/mod.rs:8-17) and the `yaml_rust` parser and scanner it drives. Events and markers are parameters of the model.
- `LoaderError::ScanError` keeps only its position. The scanner's error value is a foreign type.
- The hashing and linking inside `LinkedHashMap`. A map is a list of entries, and `insert` appends. A key equal to an existing one, which would replace that entry, never reaches `insert` (see `Model.AppendKeepsKeysUnique`).
- The panics (`unreachable!()`, `expect`) are not behaviour here:
  - An event that would reach `unreachable!()` is excluded by the precondition `!Stuck`.
  - The stack is never empty under `Valid`.
- The commented-out debug print in `on_event` (src/yaml/loader.rs:42).
- `get_result` takes the loader by value. `GetResult` only reads the stack and leaves the object usable.
- `usize` positions and anchor ids are unbounded `nat`s. Overflow cannot arise in the code modelled, because it only copies them.
- The scalar tag is reduced to a handle/suffix pair. The loader only tests whether a tag is present.
