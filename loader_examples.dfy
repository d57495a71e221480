/**
 * Loaders driven through the event runs the parser produces for small
 * documents, proved from the contracts of `Loader` alone.  The parser feeds a
 * single document and stops after its `DocumentEnd`; for a stream with no
 * document it sends `StreamEnd` right after `StreamStart`.
 */
module LoaderExamples {
  import opened Wrappers
  import opened Model
  import opened YamlLoader
  import opened LoaderProperties
  import YamlRust

  /** A plain scalar event without anchor or tag. */
  function PlainScalar(text: string): YamlRust.Event
  {
    YamlRust.Scalar(text, YamlRust.Plain, 0, None)
  }

  /** Open the stream and the document of a new loader. */
  method StartDocument(loader: Loader)
    requires loader.stack == [Initial]
    modifies loader
    ensures loader.Valid() && loader.stack == [DocumentStarted]
  {
    assert Inv([Initial]);
    loader.OnEvent(YamlRust.StreamStart, YamlRust.Marker(0, 0, 0));
    loader.OnEvent(YamlRust.DocumentStart, YamlRust.Marker(0, 0, 0));
  }

  /** Feed one event to a loader whose stack is the suspended entries `below` under the current state `top`. */
  method Feed(loader: Loader, ghost below: seq<State>, ghost top: State, ev: YamlRust.Event, m: YamlRust.Marker)
    requires loader.Valid() && loader.stack == below + [top] && !top.Error? && !Stuck(top, ev)
    modifies loader
    ensures loader.Valid()
    ensures below != [] ==> IsParent(below[|below| - 1])
    ensures match Next(top, ev, m)
            case Replace(s) => loader.stack == below + [s]
            case Open(child) => loader.stack == below + [top, child]
            case Close(node) => |below| > 0 && loader.stack == below[..|below| - 1] + [Fold(below[|below| - 1], node)]
  {
    StepOnTop(below, top, ev, m);
    loader.OnEvent(ev, m);
  }

  /** Feed one event to a loader in the error state: nothing changes. */
  method FeedAfterError(loader: Loader, ev: YamlRust.Event, m: YamlRust.Marker)
    requires loader.Valid() && Current(loader.stack).Error?
    modifies loader
    ensures loader.Valid() && loader.stack == old(loader.stack)
  {
    ErrorIsSticky(loader.stack, ev, m);
    loader.OnEvent(ev, m);
  }

  /** Feed a plain scalar to a loader whose current state is a parent: it is folded in like a finished child. */
  method FeedPlainScalar(loader: Loader, ghost below: seq<State>, ghost top: State, text: string, m: YamlRust.Marker)
    requires loader.Valid() && loader.stack == below + [top] && IsParent(top)
    modifies loader
    ensures loader.Valid()
    ensures loader.stack == below + [Fold(top, Scalar(ScalarNode(text, PosFrom(m), Plain)))]
  {
    assert StyleFrom(YamlRust.Plain) == Plain;
    ScalarFoldsLikeChild(top, text, YamlRust.Plain, m);
    Feed(loader, below, top, PlainScalar(text), m);
  }

  /** Feed a plain scalar to an open sequence: it becomes the last item. */
  method FeedItem(loader: Loader, ghost below: seq<State>, ghost items: seq<Node>, text: string, m: YamlRust.Marker)
    requires loader.Valid() && loader.stack == below + [SequenceWaitForValue(items)]
    modifies loader
    ensures loader.Valid()
    ensures loader.stack == below + [SequenceWaitForValue(items + [Scalar(ScalarNode(text, PosFrom(m), Plain))])]
  {
    FeedPlainScalar(loader, below, SequenceWaitForValue(items), text, m);
  }

  /** Feed the end of an open sequence: the sequence, positioned at its end, is folded into the parent below it. */
  method FeedSequenceEnd(loader: Loader, ghost below: seq<State>, ghost parent: State, ghost items: seq<Node>, m: YamlRust.Marker)
    requires loader.Valid() && loader.stack == below + [parent, SequenceWaitForValue(items)]
    modifies loader
    ensures loader.Valid() && IsParent(parent)
    ensures loader.stack == below + [Fold(parent, Sequence(SequenceNode(items, PosFrom(m))))]
  {
    assert below + [parent, SequenceWaitForValue(items)] == (below + [parent]) + [SequenceWaitForValue(items)];
    Feed(loader, below + [parent], SequenceWaitForValue(items), YamlRust.SequenceEnd, m);
    assert (below + [parent])[..|below|] == below;
  }

  /** Feed a plain key and a plain value to a mapping that does not have the key yet: the entry is appended. */
  method FeedEntry(loader: Loader, ghost below: seq<State>, ghost entries: Entries, key: string, value: string, m: YamlRust.Marker)
    requires loader.Valid() && loader.stack == below + [MapWaitForKey(entries)] && !HasKeyText(entries, key)
    modifies loader
    ensures loader.Valid()
    ensures loader.stack
            == below + [MapWaitForKey(entries + [(ScalarNode(key, PosFrom(m), Plain), Scalar(ScalarNode(value, PosFrom(m), Plain)))])]
  {
    ghost var k := ScalarNode(key, PosFrom(m), Plain);
    assert StyleFrom(YamlRust.Plain) == Plain;
    Feed(loader, below, MapWaitForKey(entries), PlainScalar(key), m);
    assert loader.stack == below + [MapWaitForValue(entries, k)];
    FeedPlainScalar(loader, below, MapWaitForValue(entries, k), value, m);
  }

  /**
   * Feed the events of a mapping `{key: value}` to a loader whose current state
   * is a parent: the mapping, positioned at its end, is folded into that parent.
   */
  method FeedSingletonMapping(loader: Loader, ghost below: seq<State>, ghost top: State,
                              key: string, value: string, m: YamlRust.Marker, end: YamlRust.Marker)
    requires loader.Valid() && loader.stack == below + [top] && IsParent(top)
    modifies loader
    ensures loader.Valid()
    ensures loader.stack == below + [Fold(top, Map(MapNode([(ScalarNode(key, PosFrom(m), Plain),
                                                              Scalar(ScalarNode(value, PosFrom(m), Plain)))], PosFrom(end))))]
  {
    ghost var entries := [(ScalarNode(key, PosFrom(m), Plain), Scalar(ScalarNode(value, PosFrom(m), Plain)))];
    Feed(loader, below, top, YamlRust.MappingStart(0), m);
    assert loader.stack == (below + [top]) + [MapWaitForKey([])];
    FeedEntry(loader, below + [top], [], key, value, m);
    assert [] + entries == entries;
    Feed(loader, below + [top], MapWaitForKey(entries), YamlRust.MappingEnd, end);
    assert (below + [top])[..|below|] == below;
  }

  /** End a finished document and take its result. */
  method FinishDocument(loader: Loader, ghost doc: Node, m: YamlRust.Marker) returns (r: Result<Node, LoaderError>)
    requires loader.Valid() && loader.stack == [EndDocument(doc)]
    modifies loader
    ensures r == Ok(doc)
  {
    loader.OnEvent(YamlRust.DocumentEnd, m);
    r := loader.GetResult();
  }

  /** The empty or blank input: only the stream events.  The document is an empty plain scalar. */
  method LoadEmptyStream(m: YamlRust.Marker) returns (r: Result<Node, LoaderError>)
    ensures r == Ok(Scalar(ScalarNode("", PosFrom(m), Plain)))
  {
    var loader := new Loader();
    loader.OnEvent(YamlRust.StreamStart, m);
    loader.OnEvent(YamlRust.StreamEnd, m);
    r := loader.GetResult();
  }

  /** `Hello World`: a document holding one plain scalar. */
  method LoadSimpleScalar(m: YamlRust.Marker, at: YamlRust.Marker) returns (r: Result<Node, LoaderError>)
    ensures r.Ok? && r.value.Scalar?
    ensures r.value.scalar == ScalarNode("Hello World", PosFrom(at), Plain)
  {
    var loader := new Loader();
    loader.OnEvent(YamlRust.StreamStart, m);
    loader.OnEvent(YamlRust.DocumentStart, m);
    loader.OnEvent(PlainScalar("Hello World"), at);
    loader.OnEvent(YamlRust.DocumentEnd, m);
    r := loader.GetResult();
  }

  /** `- First`, `- Second`, `- Third`: a sequence of three plain scalars, in order. */
  method LoadSimpleSequence(m: YamlRust.Marker) returns (r: Result<Node, LoaderError>)
    ensures r.Ok? && r.value.Sequence?
    ensures |r.value.sequence.value| == 3
    ensures forall i :: 0 <= i < 3 ==> r.value.sequence.value[i].Scalar?
    ensures r.value.sequence.value[0].scalar.value == "First"
    ensures r.value.sequence.value[1].scalar.value == "Second"
    ensures r.value.sequence.value[2].scalar.value == "Third"
  {
    var p := PosFrom(m);
    ghost var first, second, third :=
      Scalar(ScalarNode("First", p, Plain)), Scalar(ScalarNode("Second", p, Plain)), Scalar(ScalarNode("Third", p, Plain));
    var loader := new Loader();
    StartDocument(loader);
    assert loader.stack == [] + [DocumentStarted];
    Feed(loader, [], DocumentStarted, YamlRust.SequenceStart(0), m);
    assert loader.stack == [DocumentStarted] + [SequenceWaitForValue([])];
    FeedItem(loader, [DocumentStarted], [], "First", m);
    FeedItem(loader, [DocumentStarted], [] + [first], "Second", m);
    FeedItem(loader, [DocumentStarted], [] + [first] + [second], "Third", m);
    assert [] + [first] + [second] + [third] == [first, second, third];
    FeedSequenceEnd(loader, [], DocumentStarted, [first, second, third], m);
    r := FinishDocument(loader, Sequence(SequenceNode([first, second, third], p)), m);
  }

  /**
   * `a: 1` then `a: 2`: the second key is rejected at its own position, and
   * the closing events that follow do not change the error.
   */
  method LoadDuplicateKey(m: YamlRust.Marker, second: YamlRust.Marker) returns (r: Result<Node, LoaderError>)
    ensures r == Err(DuplicateKey(PosFrom(second)))
  {
    var p := PosFrom(m);
    ghost var key := ScalarNode("a", p, Plain);
    ghost var entries := [(key, Scalar(ScalarNode("1", p, Plain)))];
    var loader := new Loader();
    StartDocument(loader);
    assert loader.stack == [] + [DocumentStarted];
    Feed(loader, [], DocumentStarted, YamlRust.MappingStart(0), m);
    assert loader.stack == [DocumentStarted] + [MapWaitForKey([])];
    FeedEntry(loader, [DocumentStarted], [], "a", "1", m);
    assert [] + entries == entries;
    assert HasKeyText(entries, "a") by {
      assert entries[0].0.value == "a";
    }
    Feed(loader, [DocumentStarted], MapWaitForKey(entries), YamlRust.Scalar("a", YamlRust.DoubleQuoted, 0, None), second);
    FeedAfterError(loader, PlainScalar("2"), m);
    FeedAfterError(loader, YamlRust.MappingEnd, m);
    FeedAfterError(loader, YamlRust.DocumentEnd, m);
    r := loader.GetResult();
  }

  /** `? [x]: 1`: a sequence used as a key is rejected at the sequence's start. */
  method LoadSequenceAsKey(m: YamlRust.Marker, start: YamlRust.Marker) returns (r: Result<Node, LoaderError>)
    ensures r == Err(KeyNotScalar(PosFrom(start)))
  {
    var loader := new Loader();
    StartDocument(loader);
    assert loader.stack == [] + [DocumentStarted];
    Feed(loader, [], DocumentStarted, YamlRust.MappingStart(0), m);
    assert loader.stack == [DocumentStarted] + [MapWaitForKey([])];
    Feed(loader, [DocumentStarted], MapWaitForKey([]), YamlRust.SequenceStart(0), start);
    FeedAfterError(loader, PlainScalar("x"), m);
    FeedAfterError(loader, YamlRust.SequenceEnd, m);
    FeedAfterError(loader, PlainScalar("1"), m);
    FeedAfterError(loader, YamlRust.MappingEnd, m);
    FeedAfterError(loader, YamlRust.DocumentEnd, m);
    r := loader.GetResult();
  }

  /** `- &x a` then `- *x`: the anchored scalar is rejected before the alias is seen. */
  method LoadAnchorAndAlias(m: YamlRust.Marker, anchored: YamlRust.Marker) returns (r: Result<Node, LoaderError>)
    ensures r == Err(AnchorNotSupported(PosFrom(anchored)))
  {
    var loader := new Loader();
    StartDocument(loader);
    assert loader.stack == [] + [DocumentStarted];
    Feed(loader, [], DocumentStarted, YamlRust.SequenceStart(0), m);
    assert loader.stack == [DocumentStarted] + [SequenceWaitForValue([])];
    Feed(loader, [DocumentStarted], SequenceWaitForValue([]), YamlRust.Scalar("a", YamlRust.Plain, 1, None), anchored);
    FeedAfterError(loader, YamlRust.Alias(1), m);
    FeedAfterError(loader, YamlRust.SequenceEnd, m);
    FeedAfterError(loader, YamlRust.DocumentEnd, m);
    r := loader.GetResult();
  }

  /** A mapping `{k: v}` inside a sequence: the entry keeps its key, and the mapping takes the mark of its end. */
  method LoadNestedMapping(m: YamlRust.Marker, end: YamlRust.Marker) returns (r: Result<Node, LoaderError>)
    ensures r.Ok? && r.value.Sequence? && |r.value.sequence.value| == 1
    ensures var inner := r.value.sequence.value[0];
            inner.Map? && inner.mapping.pos == PosFrom(end) && inner.mapping.ContainsKey("k") &&
            |inner.mapping.value| == 1 && inner.mapping.value[0].1 == Scalar(ScalarNode("v", PosFrom(m), Plain))
  {
    var p := PosFrom(m);
    ghost var entries := [(ScalarNode("k", p, Plain), Scalar(ScalarNode("v", p, Plain)))];
    ghost var inner := Map(MapNode(entries, PosFrom(end)));
    var loader := new Loader();
    StartDocument(loader);
    assert loader.stack == [] + [DocumentStarted];
    Feed(loader, [], DocumentStarted, YamlRust.SequenceStart(0), m);
    assert loader.stack == [DocumentStarted] + [SequenceWaitForValue([])];
    FeedSingletonMapping(loader, [DocumentStarted], SequenceWaitForValue([]), "k", "v", m, end);
    assert [] + [inner] == [inner];
    Feed(loader, [DocumentStarted], SequenceWaitForValue([inner]), YamlRust.SequenceEnd, m);
    r := FinishDocument(loader, Sequence(SequenceNode([inner], p)), m);
    assert inner.mapping.ContainsKey("k") by {
      assert entries[0].0.value == "k";
    }
  }
}
