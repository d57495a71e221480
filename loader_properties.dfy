/**
 * What the transition relation of the loader guarantees: the shape of the
 * stack and its depth, sticky errors, the order in which unsupported
 * features are rejected, unique keys and order-preserving containers.
 */
module LoaderProperties {
  import opened Wrappers
  import opened Model
  import opened YamlLoader
  import YamlRust

  /** The number of containers under construction on the stack. */
  function OpenContainers(stack: seq<State>): nat
  {
    if stack == [] then 0
    else (if IsContainer(stack[0]) then 1 else 0) + OpenContainers(stack[1..])
  }

  lemma {:induction false} AllContainers(s: seq<State>)
    requires forall i :: 0 <= i < |s| ==> IsContainer(s[i])
    ensures OpenContainers(s) == |s|
  {
    if s != [] {
      AllContainers(s[1..]);
    }
  }

  /**
   * Outside the error state, the stack holds the current state plus one
   * suspended parent per open container.  The error state is excluded because
   * there the count fails in the program too: an error raised inside an open
   * container replaces that container on top, and the parents below it stay
   * (`[DocumentStarted, Error(e)]` has depth 2 and no open container).
   */
  lemma StackDepthIsOpenContainers(stack: seq<State>)
    requires Inv(stack) && !Current(stack).Error?
    ensures |stack| == 1 + OpenContainers(stack)
  {
    AllContainers(stack[1..]);
    assert forall i :: 0 < i < |stack| ==> stack[i] == stack[1..][i - 1];
  }

  /** A new loader's stack is the single state `Initial`, and it satisfies the invariant. */
  lemma InitialStack()
    ensures Inv([Initial]) && OpenContainers([Initial]) == 0
  {
  }

  /** Opening a container pushes exactly one entry, closing one pops exactly one, anything else keeps the depth. */
  lemma StepChangesDepthByOne(stack: seq<State>, ev: YamlRust.Event, mark: YamlRust.Marker)
    requires Inv(stack) && !Stuck(Current(stack), ev) && !Current(stack).Error?
    ensures var r := Step(stack, ev, mark);
            match Next(Current(stack), ev, mark)
            case Open(_) => |r| == |stack| + 1 && r[..|stack|] == stack
            case Close(_) => |r| == |stack| - 1 && r[..|r| - 1] == stack[..|stack| - 2]
            case Replace(_) => |r| == |stack| && r[..|r| - 1] == stack[..|stack| - 1]
  {
  }

  /** Only a sequence or mapping start opens a container, and only a sequence or mapping end closes one. */
  lemma OnlyBlockEventsOpenOrClose(state: State, ev: YamlRust.Event, mark: YamlRust.Marker)
    requires !state.Error? && !Stuck(state, ev)
    ensures Next(state, ev, mark).Open? ==> ev.SequenceStart? || ev.MappingStart?
    ensures Next(state, ev, mark).Close? ==> ev.SequenceEnd? || ev.MappingEnd?
    ensures ev.SequenceEnd? || ev.MappingEnd? ==> Next(state, ev, mark).Close?
  {
  }

  /** The error state is outside the depth count: an error on top of an open container's parent leaves that parent on the stack. */
  lemma ErrorBreaksDepthCount(e: LoaderError)
    ensures Inv([DocumentStarted, Error(e)])
    ensures |[DocumentStarted, Error(e)]| != 1 + OpenContainers([DocumentStarted, Error(e)])
  {
    assert [DocumentStarted, Error(e)][1..] == [Error(e)];
    assert [Error(e)][1..] == [];
    assert OpenContainers([Error(e)]) == 0;
    assert OpenContainers([DocumentStarted, Error(e)]) == 0;
  }

  /** Every entry below the current one is a state a finished child can be folded into. */
  lemma SuspendedAreParents(stack: seq<State>)
    requires Shape(stack)
    ensures forall i :: 0 <= i < |stack| - 1 ==> IsParent(stack[i])
  {
  }

  /** In the error state an event changes nothing. */
  lemma ErrorIsSticky(stack: seq<State>, ev: YamlRust.Event, mark: YamlRust.Marker)
    requires Shape(stack) && Current(stack).Error?
    ensures !Stuck(Current(stack), ev)
    ensures Step(stack, ev, mark) == stack
  {
  }

  /** Once in the error state, no run of events changes the stack or the reported error. */
  lemma {:induction false} ErrorIsStickyForRuns(stack: seq<State>, events: seq<(YamlRust.Event, YamlRust.Marker)>)
    requires Shape(stack) && Current(stack).Error?
    ensures Run(stack, events) == Some(stack)
    ensures ResultOf(Run(stack, events).value) == Err(Current(stack).error)
    decreases |events|
  {
    if events != [] {
      ErrorIsStickyForRuns(stack, events[1..]);
    }
  }

  /** The result of an error state is that error, whatever is suspended below it. */
  lemma ResultIgnoresSuspended(below: seq<State>, e: LoaderError)
    ensures ResultOf(below + [Error(e)]) == Err(e)
  {
  }

  /** An alias is rejected from every non-error state; `Nothing` changes nothing. */
  lemma AliasAndNothing(stack: seq<State>, target: nat, mark: YamlRust.Marker)
    requires Shape(stack) && !Current(stack).Error?
    ensures Step(stack, YamlRust.Alias(target), mark)
            == stack[..|stack| - 1] + [Error(AliasNotSupported(PosFrom(mark)))]
    ensures Step(stack, YamlRust.Nothing, mark) == stack
  {
  }

  /** A scalar with an anchor is rejected for the anchor even when it is also tagged; a tagged one for its tag. */
  lemma ScalarRejectionOrder(state: State, text: string, style: YamlRust.TScalarStyle, anchor: nat,
                             tag: Option<YamlRust.Tag>, mark: YamlRust.Marker)
    requires !state.Error?
    ensures anchor != 0 || tag.Some? ==> !Stuck(state, YamlRust.Scalar(text, style, anchor, tag))
    ensures anchor != 0 ==>
              Next(state, YamlRust.Scalar(text, style, anchor, tag), mark) == Replace(Error(AnchorNotSupported(PosFrom(mark))))
    ensures anchor == 0 && tag.Some? ==>
              Next(state, YamlRust.Scalar(text, style, anchor, tag), mark) == Replace(Error(TagsNotSupported(PosFrom(mark))))
  {
  }

  /**
   * A container start with an anchor is rejected for the anchor in every
   * state; without one, it is rejected as a key while a mapping waits for a key.
   */
  lemma ContainerStartRejectionOrder(state: State, anchor: nat, isMap: bool, mark: YamlRust.Marker)
    requires !state.Error?
    requires anchor == 0 ==> IsContainer(state) || state.DocumentStarted?
    ensures var ev := if isMap then YamlRust.MappingStart(anchor) else YamlRust.SequenceStart(anchor);
            !Stuck(state, ev) &&
            (anchor != 0 ==> Next(state, ev, mark) == Replace(Error(AnchorNotSupported(PosFrom(mark))))) &&
            (anchor == 0 && state.MapWaitForKey? ==> Next(state, ev, mark) == Replace(Error(KeyNotScalar(PosFrom(mark))))) &&
            (anchor == 0 && IsParent(state) ==>
               Next(state, ev, mark) == Open(if isMap then MapWaitForKey([]) else SequenceWaitForValue([])))
  {
  }

  /**
   * A key scalar whose text is already a key of the mapping is rejected as a
   * duplicate, whatever its position and style; any other becomes the pending
   * key, the entries unchanged.
   */
  lemma KeyScalar(entries: Entries, text: string, style: YamlRust.TScalarStyle, mark: YamlRust.Marker)
    ensures var m := Next(MapWaitForKey(entries), YamlRust.Scalar(text, style, 0, None), mark);
            (HasKeyText(entries, text) ==> m == Replace(Error(DuplicateKey(PosFrom(mark))))) &&
            (!HasKeyText(entries, text) ==> m == Replace(MapWaitForValue(entries, ScalarNode(text, PosFrom(mark), StyleFrom(style)))))
  {
  }

  /** The duplicate check of the loader is the key lookup of the finished mapping: a key is rejected exactly when `ContainsKey` finds its text. */
  lemma DuplicateIffContainsKey(entries: Entries, pos: Pos, text: string, style: YamlRust.TScalarStyle, mark: YamlRust.Marker)
    ensures Next(MapWaitForKey(entries), YamlRust.Scalar(text, style, 0, None), mark).next.Error?
            <==> MapNode(entries, pos).ContainsKey(text)
  {
  }

  /** Every mapping held anywhere on the stack has pairwise distinct key texts. */
  lemma MapsHaveUniqueKeys(stack: seq<State>, i: nat)
    requires Inv(stack) && i < |stack| && (stack[i].MapWaitForKey? || stack[i].MapWaitForValue?)
    ensures UniqueKeys(stack[i].entries)
    ensures stack[i].MapWaitForValue? ==> !HasKeyText(stack[i].entries, stack[i].key.value)
  {
    assert StateWellFormed(stack[i]);
  }

  /** A finished document has unique key texts in each of its mappings, at every depth. */
  lemma DocumentIsWellFormed(stack: seq<State>)
    requires Inv(stack) && Finished(stack)
    ensures ResultOf(stack).Ok? ==> WellFormed(ResultOf(stack).value)
  {
    assert StateWellFormed(Current(stack));
  }

  /**
   * A plain scalar is taken in by a parent state exactly as a finished child
   * is: appended to a sequence, inserted under the pending key, or made the
   * whole document.
   */
  lemma ScalarFoldsLikeChild(state: State, text: string, style: YamlRust.TScalarStyle, mark: YamlRust.Marker)
    requires IsParent(state)
    ensures Next(state, YamlRust.Scalar(text, style, 0, None), mark)
            == Replace(Fold(state, Scalar(ScalarNode(text, PosFrom(mark), StyleFrom(style)))))
  {
  }

  /** Folding into a sequence appends at the end and keeps the earlier items; into a mapping, appends the entry under the pending key. */
  lemma FoldAppends(parent: State, node: Node)
    requires IsParent(parent)
    ensures parent.SequenceWaitForValue? ==>
              var r := Fold(parent, node);
              r.SequenceWaitForValue? && |r.items| == |parent.items| + 1 &&
              r.items[..|parent.items|] == parent.items && r.items[|parent.items|] == node
    ensures parent.MapWaitForValue? ==>
              var r := Fold(parent, node);
              r.MapWaitForKey? && |r.entries| == |parent.entries| + 1 &&
              r.entries[..|parent.entries|] == parent.entries && r.entries[|parent.entries|] == (parent.key, node)
    ensures parent.DocumentStarted? ==> Fold(parent, node) == EndDocument(node)
  {
  }

  /** Closing a sequence or mapping makes a node at the closing event's position and folds it into the parent below. */
  lemma CloseTakesClosingMark(stack: seq<State>, ev: YamlRust.Event, mark: YamlRust.Marker)
    requires Inv(stack) && !Current(stack).Error? && !Stuck(Current(stack), ev)
    requires ev == YamlRust.SequenceEnd || ev == YamlRust.MappingEnd
    ensures |stack| > 1
    ensures var top := Current(stack);
            var node := if ev == YamlRust.SequenceEnd then Sequence(SequenceNode(top.items, PosFrom(mark)))
                        else Map(MapNode(top.entries, PosFrom(mark)));
            Step(stack, ev, mark) == stack[..|stack| - 2] + [Fold(stack[|stack| - 2], node)]
  {
  }

  /** The end of the stream finishes an empty plain scalar document if no document was started; otherwise it is an error. */
  lemma StreamEndOutcome(stack: seq<State>, mark: YamlRust.Marker)
    requires Inv(stack) && !Current(stack).Error?
    ensures Current(stack).StreamStarted? ==>
              Step(stack, YamlRust.StreamEnd, mark) == [EndDocument(Scalar(ScalarNode("", PosFrom(mark), Plain)))]
    ensures !Current(stack).StreamStarted? ==>
              Step(stack, YamlRust.StreamEnd, mark)
              == stack[..|stack| - 1] + [Error(UnexpectedStreamEnd(PosFrom(mark)))]
  {
  }

  /** Running two runs one after the other is running their concatenation. */
  lemma {:induction false} RunAppend(stack: seq<State>, a: seq<(YamlRust.Event, YamlRust.Marker)>,
                                     b: seq<(YamlRust.Event, YamlRust.Marker)>)
    requires Shape(stack)
    ensures Run(stack, a + b) == if Run(stack, a).Some? then Run(Run(stack, a).value, b) else None
    decreases |a|
  {
    if a == [] {
      assert a + b == b;
    } else {
      assert (a + b)[0] == a[0];
      assert (a + b)[1..] == a[1..] + b;
      if !Stuck(Current(stack), a[0].0) {
        StepKeepsShape(stack, a[0].0, a[0].1);
        RunAppend(Step(stack, a[0].0, a[0].1), a[1..], b);
      }
    }
  }

  /** Three runs one after the other, each from where the previous one stopped. */
  lemma RunThree(stack: seq<State>, a: seq<(YamlRust.Event, YamlRust.Marker)>, b: seq<(YamlRust.Event, YamlRust.Marker)>,
                 c: seq<(YamlRust.Event, YamlRust.Marker)>, afterA: seq<State>, afterB: seq<State>)
    requires Shape(stack) && Run(stack, a) == Some(afterA) && Run(afterA, b) == Some(afterB)
    ensures Run(stack, a + (b + c)) == Run(afterB, c)
  {
    RunAppend(stack, a, b + c);
    RunAppend(afterA, b, c);
  }

  /** The height of a tree: 0 for a scalar, one more than its highest child for a container. */
  function Height(n: Node): nat
    decreases n
  {
    match n
    case Scalar(_) => 0
    case Sequence(s) => 1 + Max(seq(|s.value|, i requires 0 <= i < |s.value| => Height(s.value[i])))
    case Map(m) => 1 + Max(seq(|m.value|, i requires 0 <= i < |m.value| => Height(m.value[i].1)))
  }

  /** The largest of some heights, 0 for none. */
  function Max(hs: seq<nat>): (r: nat)
    ensures forall i :: 0 <= i < |hs| ==> hs[i] <= r
    ensures hs != [] ==> r in hs
  {
    if hs == [] then 0
    else var rest := Max(hs[1..]);
      if hs[0] < rest then rest else hs[0]
  }

  /** The events of `n` sequences nested one inside the other around a single plain scalar. */
  function NestedEvents(n: nat, text: string, mark: YamlRust.Marker): seq<(YamlRust.Event, YamlRust.Marker)>
  {
    if n == 0 then [(YamlRust.Scalar(text, YamlRust.Plain, 0, None), mark)]
    else [(YamlRust.SequenceStart(0), mark)] + (NestedEvents(n - 1, text, mark) + [(YamlRust.SequenceEnd, mark)])
  }

  /** The tree those events describe. */
  function NestedNode(n: nat, text: string, mark: YamlRust.Marker): Node
  {
    if n == 0 then Scalar(ScalarNode(text, PosFrom(mark), Plain))
    else Sequence(SequenceNode([NestedNode(n - 1, text, mark)], PosFrom(mark)))
  }

  lemma {:induction false} NestedNodeHeight(n: nat, text: string, mark: YamlRust.Marker)
    ensures Height(NestedNode(n, text, mark)) == n
  {
    if n > 0 {
      NestedNodeHeight(n - 1, text, mark);
      var child := NestedNode(n - 1, text, mark);
      assert seq(1, i requires 0 <= i < 1 => Height([child][i])) == [Height(child)];
    }
  }

  /** From any parent state, `n` nested sequences are built and folded into that parent, the rest of the stack untouched. */
  lemma {:induction false} NestedRun(below: seq<State>, top: State, n: nat, text: string, mark: YamlRust.Marker)
    requires Shape(below + [top]) && IsParent(top)
    ensures Run(below + [top], NestedEvents(n, text, mark)) == Some(below + [Fold(top, NestedNode(n, text, mark))])
    decreases n
  {
    if n == 0 {
      RunPlainScalar(below, top, text, mark);
    } else {
      var stack := below + [top];
      var inner := NestedEvents(n - 1, text, mark);
      var child := NestedNode(n - 1, text, mark);
      assert Shape(stack + [SequenceWaitForValue([])]) by {
        var r := stack + [SequenceWaitForValue([])];
        assert forall i :: 0 <= i < |stack| ==> r[i] == stack[i];
      }
      NestedRun(stack, SequenceWaitForValue([]), n - 1, text, mark);
      RunWrappedInSequence(below, top, inner, child, mark);
    }
  }

  /** A run that fills a fresh sequence with one child, between the sequence's start and end, folds that sequence into the parent. */
  lemma RunWrappedInSequence(below: seq<State>, top: State, inner: seq<(YamlRust.Event, YamlRust.Marker)>,
                             child: Node, mark: YamlRust.Marker)
    requires Shape(below + [top]) && IsParent(top)
    requires Shape((below + [top]) + [SequenceWaitForValue([])])
    requires Run((below + [top]) + [SequenceWaitForValue([])], inner)
             == Some((below + [top]) + [Fold(SequenceWaitForValue([]), child)])
    ensures Run(below + [top], [(YamlRust.SequenceStart(0), mark)] + (inner + [(YamlRust.SequenceEnd, mark)]))
            == Some(below + [Fold(top, Sequence(SequenceNode([child], PosFrom(mark))))])
  {
    assert [] + [child] == [child];
    RunOpenSequence(below, top, mark);
    RunCloseSequence(below, top, [child], mark);
    RunThree(below + [top], [(YamlRust.SequenceStart(0), mark)], inner, [(YamlRust.SequenceEnd, mark)],
             (below + [top]) + [SequenceWaitForValue([])], (below + [top]) + [SequenceWaitForValue([child])]);
  }

  lemma RunPlainScalar(below: seq<State>, top: State, text: string, mark: YamlRust.Marker)
    requires Shape(below + [top]) && IsParent(top)
    ensures Run(below + [top], [(YamlRust.Scalar(text, YamlRust.Plain, 0, None), mark)])
            == Some(below + [Fold(top, Scalar(ScalarNode(text, PosFrom(mark), Plain)))])
  {
    var ev := YamlRust.Scalar(text, YamlRust.Plain, 0, None);
    assert Step(below + [top], ev, mark) == below + [Fold(top, Scalar(ScalarNode(text, PosFrom(mark), Plain)))] by {
      ScalarFoldsLikeChild(top, text, YamlRust.Plain, mark);
      StepOnTop(below, top, ev, mark);
    }
    RunOne(below + [top], ev, mark);
  }

  lemma RunOpenSequence(below: seq<State>, top: State, mark: YamlRust.Marker)
    requires Shape(below + [top]) && IsParent(top)
    ensures Run(below + [top], [(YamlRust.SequenceStart(0), mark)]) == Some((below + [top]) + [SequenceWaitForValue([])])
  {
    var stack := below + [top];
    var ev := YamlRust.SequenceStart(0);
    assert !Stuck(top, ev) && Next(top, ev, mark) == Open(SequenceWaitForValue([]));
    assert Step(stack, ev, mark) == stack + [SequenceWaitForValue([])] by {
      StepOnTop(below, top, ev, mark);
      assert below + [top, SequenceWaitForValue([])] == stack + [SequenceWaitForValue([])];
    }
    RunOne(stack, ev, mark);
  }

  lemma RunCloseSequence(below: seq<State>, top: State, items: seq<Node>, mark: YamlRust.Marker)
    requires Shape((below + [top]) + [SequenceWaitForValue(items)]) && IsParent(top)
    ensures Run((below + [top]) + [SequenceWaitForValue(items)], [(YamlRust.SequenceEnd, mark)])
            == Some(below + [Fold(top, Sequence(SequenceNode(items, PosFrom(mark))))])
  {
    var stack := (below + [top]) + [SequenceWaitForValue(items)];
    var node := Sequence(SequenceNode(items, PosFrom(mark)));
    assert Step(stack, YamlRust.SequenceEnd, mark) == below + [Fold(top, node)] by {
      StepOnTop(below + [top], SequenceWaitForValue(items), YamlRust.SequenceEnd, mark);
      assert (below + [top])[..|below|] == below;
    }
    RunOne(stack, YamlRust.SequenceEnd, mark);
  }

  /** A single event is one step. */
  lemma RunOne(stack: seq<State>, ev: YamlRust.Event, mark: YamlRust.Marker)
    requires Shape(stack) && !Stuck(Current(stack), ev)
    ensures Run(stack, [(ev, mark)]) == Some(Step(stack, ev, mark))
  {
    StepKeepsShape(stack, ev, mark);
    assert [(ev, mark)][1..] == [];
  }

  /** The stream and document starts take a new loader to the start of its document. */
  lemma RunPrologue(mark: YamlRust.Marker)
    ensures Run([Initial], [(YamlRust.StreamStart, mark), (YamlRust.DocumentStart, mark)]) == Some([DocumentStarted])
  {
    assert Shape([Initial]);
    assert [(YamlRust.StreamStart, mark), (YamlRust.DocumentStart, mark)]
           == [(YamlRust.StreamStart, mark)] + [(YamlRust.DocumentStart, mark)];
    RunAppend([Initial], [(YamlRust.StreamStart, mark)], [(YamlRust.DocumentStart, mark)]);
    assert [] + [Initial] == [Initial] && [] + [StreamStarted] == [StreamStarted];
    StepOnTop([], Initial, YamlRust.StreamStart, mark);
    assert Step([Initial], YamlRust.StreamStart, mark) == [StreamStarted];
    RunOne([Initial], YamlRust.StreamStart, mark);
    assert Run([Initial], [(YamlRust.StreamStart, mark)]) == Some([StreamStarted]);
    assert [] + [DocumentStarted] == [DocumentStarted];
    StepOnTop([], StreamStarted, YamlRust.DocumentStart, mark);
    assert Step([StreamStarted], YamlRust.DocumentStart, mark) == [DocumentStarted];
    RunOne([StreamStarted], YamlRust.DocumentStart, mark);
  }

  /** The end of a finished document leaves it finished. */
  lemma RunDocumentEnd(done: State, mark: YamlRust.Marker)
    requires done.EndDocument?
    ensures Run([done], [(YamlRust.DocumentEnd, mark)]) == Some([done])
  {
    assert [] + [done] == [done];
    StepOnTop([], done, YamlRust.DocumentEnd, mark);
    RunOne([done], YamlRust.DocumentEnd, mark);
  }

  /**
   * A document of `n` nested single-item sequences loads as a tree of height
   * exactly `n`.
   */
  lemma NestingDepth(n: nat, text: string, mark: YamlRust.Marker)
    ensures var events := [(YamlRust.StreamStart, mark), (YamlRust.DocumentStart, mark)]
                          + NestedEvents(n, text, mark) + [(YamlRust.DocumentEnd, mark)];
            Run([Initial], events) == Some([EndDocument(NestedNode(n, text, mark))])
    ensures Height(NestedNode(n, text, mark)) == n
  {
    var prologue := [(YamlRust.StreamStart, mark), (YamlRust.DocumentStart, mark)];
    var body := NestedEvents(n, text, mark);
    var end := [(YamlRust.DocumentEnd, mark)];
    var done := [EndDocument(NestedNode(n, text, mark))];
    assert prologue + body + end == prologue + (body + end);
    assert Shape([Initial]);
    RunAppend([Initial], prologue, body + end);
    RunPrologue(mark);
    RunAppend([DocumentStarted], body, end);
    assert [] + [DocumentStarted] == [DocumentStarted];
    NestedRun([], DocumentStarted, n, text, mark);
    assert [] + [Fold(DocumentStarted, NestedNode(n, text, mark))] == done;
    RunDocumentEnd(done[0], mark);
    NestedNodeHeight(n, text, mark);
  }
}
