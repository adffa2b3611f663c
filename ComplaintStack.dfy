/** The history stack of complaintStack.js: resolved complaints pushed on top,
    the most recent popped first. The source stores any value, so the element
    type is a parameter. */
module ComplaintStacks {
  import opened Wrappers

  /** The stack after `push(complaint)`: the complaint on top. */
  function Pushed<T>(stack: seq<T>, complaint: T): seq<T> {
    stack + [complaint]
  }

  /** What `pop()` returns (undefined on an empty stack) and the stack it leaves. */
  function Popped<T>(stack: seq<T>): (Option<T>, seq<T>) {
    if stack == [] then (None, []) else (Some(stack[|stack| - 1]), stack[..|stack| - 1])
  }

  class ComplaintStack<T> {
    var stack: seq<T>

    constructor ()
      ensures stack == []
    {
      stack := [];
    }

    method Push(complaint: T)
      modifies this
      ensures stack == Pushed(old(stack), complaint)
    {
      stack := stack + [complaint];
    }

    method Pop() returns (top: Option<T>)
      modifies this
      ensures (top, stack) == Popped(old(stack))
    {
      if stack == [] {
        return None;
      }
      top := Some(stack[|stack| - 1]);
      stack := stack[..|stack| - 1];
    }

    function GetHistory(): (history: seq<T>)
      reads this
      ensures history == stack
    {
      stack
    }
  }

  /** push grows the stack by one, with the complaint on top and the earlier
      entries unchanged, oldest first. */
  lemma PushOnTop<T>(stack: seq<T>, complaint: T)
    ensures var r := Pushed(stack, complaint);
            |r| == |stack| + 1 && r[|stack|] == complaint && r[..|stack|] == stack
  {
  }

  /** pop on an empty stack returns undefined and leaves it empty; otherwise it
      returns the most recent push and shrinks the stack by one. */
  lemma PopTakesTop<T>(stack: seq<T>)
    ensures stack == [] ==> Popped(stack) == (None, [])
    ensures stack != [] ==> Popped(stack).0 == Some(stack[|stack| - 1])
                            && |Popped(stack).1| == |stack| - 1
                            && Popped(stack).1 + [stack[|stack| - 1]] == stack
  {
  }

  /** push followed by pop returns the pushed complaint and restores the stack;
      pop followed by pushing the popped complaint back restores it too. */
  lemma PushPopRoundTrip<T>(stack: seq<T>, complaint: T)
    ensures Popped(Pushed(stack, complaint)) == (Some(complaint), stack)
    ensures stack != [] ==> Pushed(Popped(stack).1, Popped(stack).0.value) == stack
  {
  }

  /** The complaints that popping until the stack is empty returns, in order:
      last in, first out. */
  function PopAll<T>(stack: seq<T>): (popped: seq<T>)
    ensures |popped| == |stack|
    ensures forall k :: 0 <= k < |stack| ==> popped[k] == stack[|stack| - 1 - k]
  {
    match Popped(stack)
    case (None, _) => []
    case (Some(top), rest) => [top] + PopAll(rest)
  }
}
