/**
 * The event-driven document builder.  The builder keeps a stack of states:
 * the last entry is the current state, the entries below it are the parent
 * contexts suspended while a nested sequence or mapping is open.  Each event
 * either replaces the current state, opens a container (the current state is
 * suspended and a fresh container state goes on top) or closes one (the
 * finished node is folded into the suspended parent).  Errors are a terminal
 * state that absorbs every later event.
 *
 * The transition relation is given first as pure functions (`Next`, `Fold`,
 * `Step`); the class `Loader` then performs it in place on its stack, in the
 * order the program does, and is proved to follow `Step`.
 */
module YamlLoader {
  import opened Wrappers
  import opened Model
  import YamlRust

  /** The errors the loader reports; each carries the position of the event that caused it. */
  datatype LoaderError =
    | UnexpectedStreamEnd(pos: Pos)
    | AliasNotSupported(pos: Pos)
    | AnchorNotSupported(pos: Pos)
    | TagsNotSupported(pos: Pos)
    | KeyNotScalar(pos: Pos)
    | DuplicateKey(pos: Pos)
    | ScanError(pos: Pos)

  /** One construction context; the containers own the part built so far. */
  datatype State =
    | Initial
    | StreamStarted
    | DocumentStarted
    | MapWaitForKey(entries: Entries)
    | MapWaitForValue(entries: Entries, key: ScalarNode)
    | SequenceWaitForValue(items: seq<Node>)
    | EndDocument(node: Node)
    | Error(error: LoaderError)

  /** A mapping or sequence under construction. */
  predicate IsContainer(s: State)
  {
    s.MapWaitForKey? || s.MapWaitForValue? || s.SequenceWaitForValue?
  }

  /** The states a finished child can be folded into, and so the only ones ever suspended. */
  predicate IsParent(s: State)
  {
    s.DocumentStarted? || s.SequenceWaitForValue? || s.MapWaitForValue?
  }

  /** The current state: the top of the stack. */
  function Current(stack: seq<State>): State
    requires stack != []
  {
    stack[|stack| - 1]
  }

  /**
   * The (state, event) pairs for which the program reaches `unreachable!()`.
   * A well-behaved event source never sends these; every other pair,
   * including every event in the error state, is handled.
   */
  predicate Stuck(state: State, ev: YamlRust.Event): (b: bool)
    ensures b ==> !state.Error?
    ensures b ==> !(ev.Nothing? || ev.StreamEnd? || ev.Alias?)
    ensures ev.Scalar? && (ev.anchor != 0 || ev.tag.Some?) ==> !b
    ensures (ev.SequenceStart? || ev.MappingStart?) && (ev.anchor != 0 || IsParent(state) || state.MapWaitForKey?) ==> !b
  {
    !state.Error? &&
    match ev
    case StreamStart => !state.Initial?
    case DocumentStart => !state.StreamStarted?
    case DocumentEnd => !state.EndDocument?
    case Scalar(_, _, anchor, tag) => anchor == 0 && tag.None? && !IsContainer(state) && !state.DocumentStarted?
    case SequenceStart(anchor) => anchor == 0 && !IsContainer(state) && !state.DocumentStarted?
    case MappingStart(anchor) => anchor == 0 && !IsContainer(state) && !state.DocumentStarted?
    case SequenceEnd => !state.SequenceWaitForValue?
    case MappingEnd => !state.MapWaitForKey?
    case _ => false
  }

  /** What one event does to the stack. */
  datatype Move =
    | Replace(next: State)   // the current state is replaced by `next`
    | Open(child: State)     // the current state is suspended and `child` goes on top
    | Close(node: Node)      // the current container is finished as `node` and folded into its parent

  /** The move a non-error state makes on an event. */
  function Next(state: State, ev: YamlRust.Event, mark: YamlRust.Marker): (m: Move)
    requires !state.Error? && !Stuck(state, ev)
    ensures m.Open? ==> IsParent(state) && m.child in {SequenceWaitForValue([]), MapWaitForKey([])}
    ensures m.Close? ==> state.SequenceWaitForValue? || state.MapWaitForKey?
    ensures m.Replace? && IsContainer(m.next) ==> IsContainer(state)
    ensures m.Replace? && IsContainer(state) ==> IsContainer(m.next) || m.next.Error?
  {
    var pos := PosFrom(mark);
    match ev
    case Nothing => Replace(state)
    case StreamStart => Replace(StreamStarted)
    case StreamEnd =>
      if state.StreamStarted? then Replace(EndDocument(Scalar(ScalarNode("", pos, Plain))))
      else Replace(Error(UnexpectedStreamEnd(pos)))
    case DocumentStart => Replace(DocumentStarted)
    case DocumentEnd => Replace(state)
    case Alias(_) => Replace(Error(AliasNotSupported(pos)))
    case Scalar(text, style, anchor, tag) =>
      if anchor != 0 then Replace(Error(AnchorNotSupported(pos)))
      else if tag.Some? then Replace(Error(TagsNotSupported(pos)))
      else
        var key := ScalarNode(text, pos, StyleFrom(style));
        (match state
         case MapWaitForKey(entries) =>
           if HasKeyText(entries, text) then Replace(Error(DuplicateKey(pos)))
           else Replace(MapWaitForValue(entries, key))
         case MapWaitForValue(entries, k) => Replace(MapWaitForKey(entries + [(k, Scalar(key))]))
         case SequenceWaitForValue(items) => Replace(SequenceWaitForValue(items + [Scalar(key)]))
         case DocumentStarted => Replace(EndDocument(Scalar(key))))
    case SequenceStart(anchor) => Enter(state, anchor, pos, SequenceWaitForValue([]))
    case SequenceEnd => Close(Sequence(SequenceNode(state.items, pos)))
    case MappingStart(anchor) => Enter(state, anchor, pos, MapWaitForKey([]))
    case MappingEnd => Close(Map(MapNode(state.entries, pos)))
  }

  /** Opening a container: the anchor is checked first, then that the container is not a key. */
  function Enter(state: State, anchor: nat, pos: Pos, child: State): (m: Move)
    requires anchor == 0 ==> IsContainer(state) || state.DocumentStarted?
    ensures m.Open? <==> anchor == 0 && IsParent(state)
    ensures m.Open? ==> m.child == child
    ensures m.Replace? ==> m.next.Error? && m.next.error.pos == pos
    ensures !m.Close?
  {
    if anchor != 0 then Replace(Error(AnchorNotSupported(pos)))
    else if state.MapWaitForKey? then Replace(Error(KeyNotScalar(pos)))
    else Open(child)
  }

  /** The state a suspended parent becomes once the child `node` is finished. */
  function Fold(parent: State, node: Node): (r: State)
    requires IsParent(parent)
    ensures IsContainer(r) <==> IsContainer(parent)
    ensures r.EndDocument? <==> parent.DocumentStarted?
    ensures parent.MapWaitForValue? ==> r.MapWaitForKey? && |r.entries| == |parent.entries| + 1
    ensures r.SequenceWaitForValue? ==> |r.items| == |parent.items| + 1 && r.items[|r.items| - 1] == node
  {
    match parent
    case DocumentStarted => EndDocument(node)
    case MapWaitForValue(entries, k) => MapWaitForKey(entries + [(k, node)])
    case SequenceWaitForValue(items) => SequenceWaitForValue(items + [node])
  }

  /**
   * The shape of the stack: never empty; the bottom entry is `DocumentStarted`
   * once a container is open and every other suspended entry is a sequence or
   * a mapping waiting for a value; above the bottom, the current state is a
   * container or an error.
   */
  predicate Shape(stack: seq<State>)
  {
    stack != [] &&
    (forall i :: 0 <= i < |stack| - 1 ==>
       if i == 0 then stack[i].DocumentStarted? else stack[i].SequenceWaitForValue? || stack[i].MapWaitForValue?) &&
    (IsContainer(Current(stack)) ==> |stack| > 1) &&
    (|stack| > 1 ==> IsContainer(Current(stack)) || Current(stack).Error?)
  }

  /** What every state keeps of the tree it holds: all key texts of a mapping are distinct, and a pending key is new. */
  predicate StateWellFormed(s: State)
  {
    match s
    case MapWaitForKey(entries) => MapWellFormed(entries)
    case MapWaitForValue(entries, k) => MapWellFormed(entries) && !HasKeyText(entries, k.value)
    case SequenceWaitForValue(items) => forall i :: 0 <= i < |items| ==> WellFormed(items[i])
    case EndDocument(node) => WellFormed(node)
    case _ => true
  }

  /** The loader's invariant. */
  predicate Inv(stack: seq<State>)
  {
    Shape(stack) && forall i :: 0 <= i < |stack| ==> StateWellFormed(stack[i])
  }

  /** What one event does to the whole stack; in the error state, nothing. */
  function Step(stack: seq<State>, ev: YamlRust.Event, mark: YamlRust.Marker): (r: seq<State>)
    requires Shape(stack) && !Stuck(Current(stack), ev)
    ensures r != [] && |stack| - 1 <= |r| <= |stack| + 1
    ensures |stack| >= 2 ==> r[..|stack| - 2] == stack[..|stack| - 2]
    ensures Current(stack).Error? ==> r == stack
  {
    var top := Current(stack);
    var below := stack[..|stack| - 1];
    if top.Error? then stack
    else match Next(top, ev, mark)
      case Replace(s) => below + [s]
      case Open(child) => stack + [child]
      case Close(node) => below[..|below| - 1] + [Fold(below[|below| - 1], node)]
  }

  /** `Step` on a stack written as the suspended entries `below` and the current state `top`. */
  lemma StepOnTop(below: seq<State>, top: State, ev: YamlRust.Event, mark: YamlRust.Marker)
    requires Shape(below + [top]) && !top.Error? && !Stuck(top, ev)
    ensures Current(below + [top]) == top
    ensures below != [] ==> IsParent(below[|below| - 1])
    ensures match Next(top, ev, mark)
            case Replace(s) => Step(below + [top], ev, mark) == below + [s]
            case Open(child) => Step(below + [top], ev, mark) == below + [top, child]
            case Close(node) => |below| > 0 && Step(below + [top], ev, mark) == below[..|below| - 1] + [Fold(below[|below| - 1], node)]
  {
    assert (below + [top])[..|below|] == below;
    if below != [] {
      assert (below + [top])[|below| - 1] == below[|below| - 1];
    }
  }

  /** A finished state keeps well-formedness when a well-formed child is folded into it. */
  lemma FoldKeepsWellFormed(parent: State, node: Node)
    requires IsParent(parent) && StateWellFormed(parent) && WellFormed(node)
    ensures StateWellFormed(Fold(parent, node))
  {
    match parent
    case DocumentStarted =>
    case MapWaitForValue(entries, k) =>
      AppendKeepsKeysUnique(entries, k, node);
      var r := entries + [(k, node)];
      assert forall i :: 0 <= i < |entries| ==> r[i] == entries[i];
    case SequenceWaitForValue(items) =>
      var r := items + [node];
      assert forall i :: 0 <= i < |items| ==> r[i] == items[i];
  }

  /** The move of a well-formed state produces well-formed states and nodes. */
  lemma NextKeepsWellFormed(state: State, ev: YamlRust.Event, mark: YamlRust.Marker)
    requires !state.Error? && !Stuck(state, ev) && StateWellFormed(state)
    ensures match Next(state, ev, mark)
            case Replace(s) => StateWellFormed(s)
            case Open(child) => StateWellFormed(child)
            case Close(node) => WellFormed(node)
  {
    var pos := PosFrom(mark);
    match ev
    case Scalar(text, style, anchor, tag) =>
      if anchor == 0 && tag.None? {
        var key := ScalarNode(text, pos, StyleFrom(style));
        if state.MapWaitForKey? {
        } else {
          FoldKeepsWellFormed(state, Scalar(key));
        }
      }
    case _ =>
  }

  /** Replacing the current state by one of the same kind (container or not), or by an error, keeps the invariant. */
  lemma ReplaceKeepsInvariant(stack: seq<State>, s: State)
    requires Inv(stack) && !Current(stack).Error? && StateWellFormed(s)
    requires IsContainer(s) ==> IsContainer(Current(stack))
    requires IsContainer(Current(stack)) ==> IsContainer(s) || s.Error?
    ensures Inv(stack[..|stack| - 1] + [s])
  {
    var r := stack[..|stack| - 1] + [s];
    assert forall i :: 0 <= i < |stack| - 1 ==> r[i] == stack[i];
  }

  /** Suspending a parent under a new empty container keeps the invariant. */
  lemma OpenKeepsInvariant(stack: seq<State>, child: State)
    requires Inv(stack) && IsParent(Current(stack))
    requires child == SequenceWaitForValue([]) || child == MapWaitForKey([])
    ensures Inv(stack + [child])
  {
    var r := stack + [child];
    assert forall i :: 0 <= i < |stack| ==> r[i] == stack[i];
  }

  /** Folding a well-formed finished container into the parent below it keeps the invariant. */
  lemma CloseKeepsInvariant(stack: seq<State>, node: Node)
    requires Inv(stack) && IsContainer(Current(stack)) && WellFormed(node)
    ensures |stack| > 1 && IsParent(stack[|stack| - 2])
    ensures Inv(stack[..|stack| - 2] + [Fold(stack[|stack| - 2], node)])
  {
    var parent := stack[|stack| - 2];
    assert StateWellFormed(parent);
    FoldKeepsWellFormed(parent, node);
    var r := stack[..|stack| - 2] + [Fold(parent, node)];
    assert forall i :: 0 <= i < |stack| - 2 ==> r[i] == stack[i];
  }

  /** Every event keeps the invariant. */
  lemma StepKeepsInvariant(stack: seq<State>, ev: YamlRust.Event, mark: YamlRust.Marker)
    requires Inv(stack) && !Stuck(Current(stack), ev)
    ensures Inv(Step(stack, ev, mark))
  {
    var top := Current(stack);
    if !top.Error? {
      var below := stack[..|stack| - 1];
      assert StateWellFormed(top);
      NextKeepsWellFormed(top, ev, mark);
      match Next(top, ev, mark)
      case Replace(s) =>
        ReplaceKeepsInvariant(stack, s);
      case Open(child) =>
        OpenKeepsInvariant(stack, child);
      case Close(node) =>
        CloseKeepsInvariant(stack, node);
        assert below[..|below| - 1] == stack[..|stack| - 2];
        assert below[|below| - 1] == stack[|stack| - 2];
    }
  }

  /** Every event keeps the shape of the stack. */
  lemma StepKeepsShape(stack: seq<State>, ev: YamlRust.Event, mark: YamlRust.Marker)
    requires Shape(stack) && !Stuck(Current(stack), ev)
    ensures Shape(Step(stack, ev, mark))
  {
    var top := Current(stack);
    if !top.Error? {
      var below := stack[..|stack| - 1];
      match Next(top, ev, mark)
      case Replace(s) =>
        var r := below + [s];
        assert forall i :: 0 <= i < |below| ==> r[i] == stack[i];
      case Open(child) =>
        var r := stack + [child];
        assert forall i :: 0 <= i < |stack| ==> r[i] == stack[i];
      case Close(node) =>
        var r := stack[..|stack| - 2] + [Fold(stack[|stack| - 2], node)];
        assert below[..|below| - 1] == stack[..|stack| - 2];
        assert forall i :: 0 <= i < |stack| - 2 ==> r[i] == stack[i];
    }
  }

  /** Is a result available: a finished document or an error? */
  predicate Finished(stack: seq<State>)
  {
    stack != [] && (Current(stack).EndDocument? || Current(stack).Error?)
  }

  /** The result `get_result` extracts: the document, or the first error, whatever lies below it. */
  function ResultOf(stack: seq<State>): (r: Result<Node, LoaderError>)
    requires Finished(stack)
    ensures r.Ok? <==> Current(stack).EndDocument?
    ensures r.Ok? ==> r.value == Current(stack).node
    ensures r.Err? ==> r.error == Current(stack).error
  {
    match Current(stack)
    case EndDocument(n) => Ok(n)
    case Error(e) => Err(e)
  }

  /**
   * Feeding a run of marked events, one by one, to a loader whose stack is
   * `stack`; `None` if some event would reach `unreachable!()`.
   */
  function Run(stack: seq<State>, events: seq<(YamlRust.Event, YamlRust.Marker)>): (r: Option<seq<State>>)
    requires Shape(stack)
    ensures r.Some? ==> Shape(r.value)
    ensures events == [] ==> r == Some(stack)
    decreases |events|
  {
    if events == [] then Some(stack)
    else if Stuck(Current(stack), events[0].0) then None
    else
      StepKeepsShape(stack, events[0].0, events[0].1);
      Run(Step(stack, events[0].0, events[0].1), events[1..])
  }

  /** A run of events from a stack satisfying the invariant ends in one that satisfies it. */
  lemma {:induction false} RunKeepsInvariant(stack: seq<State>, events: seq<(YamlRust.Event, YamlRust.Marker)>)
    requires Inv(stack) && Run(stack, events).Some?
    ensures Inv(Run(stack, events).value)
    decreases |events|
  {
    if events != [] {
      StepKeepsInvariant(stack, events[0].0, events[0].1);
      RunKeepsInvariant(Step(stack, events[0].0, events[0].1), events[1..]);
    }
  }

  /** The builder object: the program's `Loader`, a stack of states updated in place. */
  class Loader {
    var stack: seq<State>

    ghost predicate Valid()
      reads this
    {
      Inv(stack)
    }

    constructor ()
      ensures Valid() && stack == [Initial]
    {
      stack := [Initial];
    }

    /** Consume one event: pop the current state, work out the next one, push it. */
    method OnEvent(ev: YamlRust.Event, mark: YamlRust.Marker)
      requires Valid() && !Stuck(Current(stack), ev)
      modifies this
      ensures Valid() && stack == Step(old(stack), ev, mark)
    {
      ghost var before := stack;
      var state := stack[|stack| - 1];
      stack := stack[..|stack| - 1];
      assert before == stack + [state];
      if state.Error? {
        stack := stack + [state];
        return;
      }
      StepOnTop(stack, state, ev, mark);
      var newState := Transition(state, ev, mark);
      stack := stack + [newState];
      StepKeepsInvariant(before, ev, mark);
    }

    /**
     * The state that follows `state` on `ev`; opening a container suspends
     * `state` on the stack, closing one pops the parent it is folded into.
     */
    method Transition(state: State, ev: YamlRust.Event, mark: YamlRust.Marker) returns (newState: State)
      requires !state.Error? && !Stuck(state, ev) && Shape(stack + [state])
      modifies this
      ensures match Next(state, ev, mark)
              case Replace(s) => newState == s && stack == old(stack)
              case Open(child) => newState == child && stack == old(stack) + [state]
              case Close(node) =>
                old(stack) != [] && IsParent(old(stack)[|old(stack)| - 1]) &&
                stack == old(stack)[..|old(stack)| - 1] && newState == Fold(old(stack)[|old(stack)| - 1], node)
    {
      var pos := PosFrom(mark);
      match ev {
        case Nothing =>
          newState := state;
        case StreamStart =>
          newState := StreamStarted;
        case StreamEnd =>
          if state.StreamStarted? {
            newState := EndDocument(Scalar(ScalarNode("", pos, Plain)));
          } else {
            newState := Error(UnexpectedStreamEnd(pos));
          }
        case DocumentStart =>
          newState := DocumentStarted;
        case DocumentEnd =>
          newState := state;
        case Alias(_) =>
          newState := Error(AliasNotSupported(pos));
        case Scalar(text, style, anchor, tag) =>
          if anchor == 0 {
            if tag.None? {
              var node := ScalarNode(text, pos, StyleFrom(style));
              match state {
                case MapWaitForKey(entries) =>
                  if HasKeyText(entries, node.value) {
                    newState := Error(DuplicateKey(pos));
                  } else {
                    newState := MapWaitForValue(entries, node);
                  }
                case MapWaitForValue(entries, k) =>
                  newState := MapWaitForKey(entries + [(k, Scalar(node))]);
                case SequenceWaitForValue(items) =>
                  newState := SequenceWaitForValue(items + [Scalar(node)]);
                case DocumentStarted =>
                  newState := EndDocument(Scalar(node));
              }
            } else {
              newState := Error(TagsNotSupported(pos));
            }
          } else {
            newState := Error(AnchorNotSupported(pos));
          }
        case SequenceStart(anchor) =>
          newState := StartBlock(state, anchor, mark, false);
        case SequenceEnd =>
          assert (stack + [state])[|stack| - 1] == stack[|stack| - 1];
          newState := EndBlock(Sequence(SequenceNode(state.items, pos)));
        case MappingStart(anchor) =>
          newState := StartBlock(state, anchor, mark, true);
        case MappingEnd =>
          assert (stack + [state])[|stack| - 1] == stack[|stack| - 1];
          newState := EndBlock(Map(MapNode(state.entries, pos)));
      }
    }

    /** Open a container: suspend `state` and return the empty container, unless the start is rejected. */
    method StartBlock(state: State, anchor: nat, mark: YamlRust.Marker, isMap: bool) returns (r: State)
      requires anchor == 0 ==> IsContainer(state) || state.DocumentStarted?
      modifies this
      ensures anchor == 0 && IsParent(state) ==>
                stack == old(stack) + [state] &&
                r == if isMap then MapWaitForKey([]) else SequenceWaitForValue([])
      ensures anchor != 0 ==> stack == old(stack) && r == Error(AnchorNotSupported(PosFrom(mark)))
      ensures anchor == 0 && state.MapWaitForKey? ==> stack == old(stack) && r == Error(KeyNotScalar(PosFrom(mark)))
    {
      if anchor == 0 {
        match state {
          case DocumentStarted =>
            stack := stack + [state];
            r := if isMap then MapWaitForKey([]) else SequenceWaitForValue([]);
          case SequenceWaitForValue(_) =>
            stack := stack + [state];
            r := if isMap then MapWaitForKey([]) else SequenceWaitForValue([]);
          case MapWaitForValue(_, _) =>
            stack := stack + [state];
            r := if isMap then MapWaitForKey([]) else SequenceWaitForValue([]);
          case MapWaitForKey(_) =>
            r := Error(KeyNotScalar(PosFrom(mark)));
        }
      } else {
        r := Error(AnchorNotSupported(PosFrom(mark)));
      }
    }

    /** Close a container: pop the suspended parent and return it with `node` folded in. */
    method EndBlock(node: Node) returns (r: State)
      requires stack != [] && IsParent(Current(stack))
      modifies this
      ensures stack == old(stack)[..|old(stack)| - 1]
      ensures r == Fold(Current(old(stack)), node)
    {
      var parent := stack[|stack| - 1];
      stack := stack[..|stack| - 1];
      match parent {
        case DocumentStarted =>
          r := EndDocument(node);
        case MapWaitForValue(entries, k) =>
          r := MapWaitForKey(entries + [(k, node)]);
        case SequenceWaitForValue(items) =>
          r := SequenceWaitForValue(items + [node]);
      }
    }

    /** The finished document or the first error. */
    method GetResult() returns (r: Result<Node, LoaderError>)
      requires Finished(stack)
      ensures r == ResultOf(stack)
    {
      var elem := stack[|stack| - 1];
      match elem {
        case EndDocument(n) =>
          r := Ok(n);
        case Error(e) =>
          r := Err(e);
      }
    }
  }
}
