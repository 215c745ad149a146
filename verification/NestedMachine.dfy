/** The generic nested state machine: which states are on the stack, and in which order they are
    entered, fed and left. */
module NestedMachine {
  import opened Common

  /** A state with the state that `get_initial` gives, which is entered below it. */
  datatype Node = Node(id: nat, initial: Option<Node>)

  /** What a state makes of an event. */
  datatype Answer = Unhandled | Handled | Transition(target: Node)

  datatype Call = Enter(node: Node) | Leave(node: Node) | Fed(node: Node)

  datatype FeedResult = NotHandled | NoTransition | Transitioned

  /** A state and its initial children, outermost first. */
  function Chain(n: Node): (r: seq<Node>)
    ensures r != [] && r[0] == n
  {
    [n] + if n.initial.Some? then Chain(n.initial.value) else []
  }

  function Enters(nodes: seq<Node>): seq<Call> {
    if nodes == [] then [] else Enters(nodes[..|nodes| - 1]) + [Enter(nodes[|nodes| - 1])]
  }

  /** Leaving a part of the stack, innermost first. */
  function Leaves(nodes: seq<Node>): seq<Call> {
    if nodes == [] then [] else [Leave(nodes[|nodes| - 1])] + Leaves(nodes[..|nodes| - 1])
  }

  function Feds(nodes: seq<Node>): seq<Call> {
    if nodes == [] then [] else [Fed(nodes[|nodes| - 1])] + Feds(nodes[..|nodes| - 1])
  }

  lemma EntersOneMore(nodes: seq<Node>, n: Node)
    ensures Enters(nodes + [n]) == Enters(nodes) + [Enter(n)]
  {
    assert (nodes + [n])[..|nodes|] == nodes;
  }

  lemma LeavesOneMore(nodes: seq<Node>, n: Node)
    ensures Leaves(nodes + [n]) == [Leave(n)] + Leaves(nodes)
  {
    assert (nodes + [n])[..|nodes|] == nodes;
  }

  /** The open states after one more call. */
  function Called(open: Option<seq<Node>>, c: Call): Option<seq<Node>> {
    if open.None? then None
    else
      var stack := open.value;
      match c
      case Enter(n) => Some(stack + [n])
      case Leave(n) => if stack != [] && stack[|stack| - 1] == n then Some(stack[..|stack| - 1]) else None
      case Fed(n) => if n in stack then open else None
  }

  /** The states that a history has entered and not left, or none if a state was left or fed
      that was not the one to leave, or not there to feed. */
  function Open(log: seq<Call>): Option<seq<Node>> {
    if log == [] then Some([]) else Called(Open(log[..|log| - 1]), log[|log| - 1])
  }

  lemma OpenOneMore(log: seq<Call>, c: Call)
    ensures Open(log + [c]) == Called(Open(log), c)
  {
    assert (log + [c])[..|log|] == log;
  }

  lemma {:induction false} OpenEnters(log: seq<Call>, stack: seq<Node>, nodes: seq<Node>)
    requires Open(log) == Some(stack)
    ensures Open(log + Enters(nodes)) == Some(stack + nodes)
  {
    hide Open;
    if nodes == [] {
      assert log + [] == log && stack + [] == stack;
    } else {
      var n := |nodes| - 1;
      OpenEnters(log, stack, nodes[..n]);
      OpenOneMore(log + Enters(nodes[..n]), Enter(nodes[n]));
      assert log + Enters(nodes) == log + Enters(nodes[..n]) + [Enter(nodes[n])];
      assert stack + nodes[..n] + [nodes[n]] == stack + nodes;
    }
  }

  lemma {:induction false} OpenLeaves(log: seq<Call>, stack: seq<Node>, nodes: seq<Node>)
    requires Open(log) == Some(stack + nodes)
    ensures Open(log + Leaves(nodes)) == Some(stack)
    decreases |nodes|
  {
    hide Open;
    if nodes == [] {
      assert log + [] == log && stack + [] == stack;
    } else {
      var n := |nodes| - 1;
      OpenOneMore(log, Leave(nodes[n]));
      assert (stack + nodes)[..|stack + nodes| - 1] == stack + nodes[..n];
      OpenLeaves(log + [Leave(nodes[n])], stack, nodes[..n]);
      assert log + Leaves(nodes) == log + [Leave(nodes[n])] + Leaves(nodes[..n]);
    }
  }

  lemma {:induction false} OpenFeds(log: seq<Call>, stack: seq<Node>, nodes: seq<Node>)
    requires Open(log) == Some(stack) && forall n <- nodes :: n in stack
    ensures Open(log + Feds(nodes)) == Some(stack)
    decreases |nodes|
  {
    hide Open;
    if nodes == [] {
      assert log + [] == log;
    } else {
      var n := |nodes| - 1;
      OpenOneMore(log, Fed(nodes[n]));
      OpenFeds(log + [Fed(nodes[n])], stack, nodes[..n]);
      assert log + Feds(nodes) == log + [Fed(nodes[n])] + Feds(nodes[..n]);
    }
  }

  /** The innermost state that handles the event. */
  function Handler(answers: seq<Answer>): (h: int)
    ensures -1 <= h < |answers|
    ensures h >= 0 ==> answers[h] != Unhandled
    ensures forall i | h < i < |answers| :: answers[i] == Unhandled
  {
    if answers == [] then -1
    else if answers[|answers| - 1] != Unhandled then |answers| - 1
    else Handler(answers[..|answers| - 1])
  }

  /** The stack after an event: the handler and everything above it give way to the target and
      its initial children. */
  function NextStack(stack: seq<Node>, answers: seq<Answer>): seq<Node>
    requires |answers| == |stack|
  {
    var h := Handler(answers);
    if h >= 0 && answers[h].Transition? then stack[..h] + Chain(answers[h].target) else stack
  }

  /** The calls an event causes: the states asked, then those left, then those entered. */
  function Calls(stack: seq<Node>, answers: seq<Answer>): seq<Call>
    requires |answers| == |stack|
  {
    var h := Handler(answers);
    if h < 0 then Feds(stack)
    else if answers[h].Transition? then Feds(stack[h..]) + Leaves(stack[h..]) + Enters(Chain(answers[h].target))
    else Feds(stack[h..])
  }

  /** One event keeps the history well bracketed, with exactly the stack open. */
  lemma {:induction false} CallsBracketed(log: seq<Call>, stack: seq<Node>, answers: seq<Answer>)
    requires |answers| == |stack| && Open(log) == Some(stack)
    ensures Open(log + Calls(stack, answers)) == Some(NextStack(stack, answers))
  {
    hide Open, Feds, Leaves, Enters, Chain;
    var h := Handler(answers);
    var asked := if h < 0 then stack else stack[h..];
    OpenFeds(log, stack, asked);
    if h >= 0 && answers[h].Transition? {
      var fed, chain := log + Feds(asked), Chain(answers[h].target);
      assert stack == stack[..h] + asked;
      OpenLeaves(fed, stack[..h], asked);
      OpenEnters(fed + Leaves(asked), stack[..h], chain);
      assert log + Calls(stack, answers) == fed + Leaves(asked) + Enters(chain);
    }
  }

  lemma ChainIs(n: Node)
    ensures Chain(n) == [n] + if n.initial.Some? then Chain(n.initial.value) else []
  {
  }

  lemma NothingOpen()
    ensures Open([]) == Some([])
  {
  }

  lemma NothingEntered()
    ensures Enters([]) == []
  {
  }

  lemma NothingLeft()
    ensures Leaves([]) == []
  {
  }

  class NestedFsm {
    var stack: seq<Node>
    ghost var log: seq<Call>

    /** The history leaves exactly the stack open, down to a state without children. */
    ghost predicate Valid()
      reads this
    {
      && Open(log) == Some(stack)
      && stack != [] && stack[|stack| - 1].initial.None?
    }

    constructor (initial: Node)
      ensures Valid() && stack == Chain(initial) && log == Enters(Chain(initial))
    {
      hide Open, Enters, Chain;
      stack := [initial];
      log := [];
      new;
      NothingOpen();
      UnrollChildStates([], [], initial);
      OpenEnters([], [], Chain(initial));
      assert [] + Chain(initial) == Chain(initial) && [] + Enters(Chain(initial)) == Enters(Chain(initial));
    }

    /** `unroll_child_states`: enters the top of the stack, pushes its initial child, and so on. */
    method UnrollChildStates(ghost below: seq<Node>, ghost before: seq<Call>, ghost target: Node)
      requires stack == below + [target] && log == before
      modifies this
      ensures stack == below + Chain(target) && log == before + Enters(Chain(target))
      ensures stack[|stack| - 1].initial.None?
    {
      hide Enters, Chain;
      NothingEntered();
      ghost var entered: seq<Node> := [];
      var leaf := stack[|stack| - 1];
      while true
        invariant stack == below + entered + [leaf] && log == before + Enters(entered)
        invariant Chain(target) == entered + Chain(leaf)
        decreases leaf
      {
        EntersOneMore(entered, leaf);
        ChainIs(leaf);
        assert below + entered + [leaf] == below + (entered + [leaf]);
        assert Chain(target) == entered + [leaf] + Chain(leaf)[1..];
        log := log + [Enter(leaf)];
        entered := entered + [leaf];
        if leaf.initial.None? {
          assert Chain(target) == entered;
          break;
        }
        leaf := leaf.initial.value;
        stack := stack + [leaf];
      }
    }

    /** Asks the states from the innermost on, until one handles the event or none is left. */
    method AskDown(answers: seq<Answer>) returns (last: nat)
      requires stack != [] && |answers| == |stack|
      modifies this`log
      ensures last < |stack| && log == old(log) + Feds(stack[last..])
      ensures forall i | last < i < |answers| :: answers[i] == Unhandled
      ensures answers[last] == Unhandled ==> last == 0
    {
      hide Feds;
      last := |stack| - 1;
      FedsLast(stack);
      log := log + [Fed(stack[last])];
      while answers[last] == Unhandled && last > 0
        invariant last < |stack| && log == old(log) + Feds(stack[last..])
        invariant forall i | last < i < |answers| :: answers[i] == Unhandled
      {
        last := last - 1;
        FedsBelow(stack, last);
        log := log + [Fed(stack[last])];
      }
    }

    /** Leaves the states from the innermost down to the one at `last`. */
    method LeaveDown(last: nat)
      requires last < |stack|
      modifies this
      ensures stack == old(stack[..last]) && log == old(log) + Leaves(old(stack[last..]))
    {
      hide Leaves;
      ghost var start, before := stack, log;
      var leaf := |stack| - 1;
      while leaf >= last
        invariant last - 1 <= leaf < |start| && stack == start[..leaf + 1]
        invariant log + Leaves(start[last..leaf + 1]) == before + Leaves(start[last..])
      {
        assert start[last..leaf + 1] == start[last..leaf] + [start[leaf]];
        LeavesOneMore(start[last..leaf], start[leaf]);
        log := log + [Leave(stack[leaf])];
        stack := stack[..|stack| - 1];
        leaf := leaf - 1;
      }
      NothingLeft();
      assert start[last..last] == [];
    }

    /** `answers[i]` is what `stack[i]` makes of the event, should it be asked. */
    method Feed(answers: seq<Answer>) returns (result: FeedResult)
      requires Valid() && |answers| == |stack|
      modifies this
      ensures Valid()
      ensures stack == NextStack(old(stack), answers)
      ensures log == old(log) + Calls(old(stack), answers)
      ensures result == var h := Handler(answers);
                        if h < 0 then NotHandled
                        else if answers[h].Transition? then Transitioned
                        else NoTransition
    {
      hide Open, Feds, Leaves, Enters, Chain, Handler;
      CallsBracketed(log, stack, answers);
      var last := AskDown(answers);
      HandlerIs(answers, last);
      if answers[last] == Unhandled {
        assert stack[0..] == stack;
        return NotHandled;
      }
      if answers[last] == Handled {
        return NoTransition;
      }
      LeaveDown(last);
      var target := answers[last].target;
      stack := stack + [target];
      UnrollChildStates(old(stack[..last]), log, target);
      assert log == old(log) + Calls(old(stack), answers);
      assert stack == NextStack(old(stack), answers);
      return Transitioned;
    }

    /** The destructor. */
    method Destroy()
      requires Valid()
      modifies this
      ensures stack == [] && log == old(log) + Leaves(old(stack)) && Open(log) == Some([])
    {
      hide Open;
      ghost var start, before := stack, log;
      assert [] + start == start;
      OpenLeaves(before, [], start);
      while stack != []
        invariant log + Leaves(stack) == before + Leaves(start)
        decreases |stack|
      {
        log := log + [Leave(stack[|stack| - 1])];
        stack := stack[..|stack| - 1];
      }
    }
  }

  lemma FedsLast(stack: seq<Node>)
    requires stack != []
    ensures Feds(stack[|stack| - 1..]) == [Fed(stack[|stack| - 1])]
  {
  }

  lemma FedsBelow(stack: seq<Node>, next: nat)
    requires next < |stack| - 1
    ensures Feds(stack[next..]) == Feds(stack[next + 1..]) + [Fed(stack[next])]
    decreases |stack|
  {
    var top := |stack| - 1;
    assert stack[next..][..top - next] == stack[..top][next..];
    assert stack[next + 1..][..top - next - 1] == stack[..top][next + 1..];
    if next < top - 1 {
      FedsBelow(stack[..top], next);
    }
  }

  lemma {:induction false} HandlerIs(answers: seq<Answer>, h: nat)
    requires h < |answers|
    requires forall i | h < i < |answers| :: answers[i] == Unhandled
    ensures answers[h] != Unhandled ==> Handler(answers) == h
    ensures answers[h] == Unhandled && h == 0 ==> Handler(answers) == -1
    decreases |answers|
  {
    if h < |answers| - 1 {
      HandlerIs(answers[..|answers| - 1], h);
    }
  }
}
