/** The single-assignment cell a caller waits on. */
module RpcFuture {
  import opened Basics

  /** The shared state; the cancel action is named by a number. */
  datatype Cell<R> = Cell(response: Option<R>, cancel: Option<nat>)

  datatype Operation<R> = Complete(response: R) | SetCancel(action: nat) | Cancel

  function Empty<R>(): Cell<R> { Cell(None, None) }

  /** complete(), setCancel() and cancel(); cancel() only reads. */
  function Apply<R>(c: Cell<R>, op: Operation<R>): Cell<R> {
    match op
    case Complete(response) => if c.response.Some? then c else Cell(Some(response), None)
    case SetCancel(action) => if c.response.Some? then c else c.(cancel := Some(action))
    case Cancel => c
  }

  /** What cancel() calls. */
  function ActionOf<R>(c: Cell<R>): Option<nat> {
    if c.response.Some? then None else c.cancel
  }

  function Run<R>(c: Cell<R>, ops: seq<Operation<R>>): Cell<R>
    decreases |ops|
  {
    if ops == [] then c else Run(Apply(c, ops[0]), ops[1..])
  }

  function FirstCompletion<R>(ops: seq<Operation<R>>): Option<R>
    decreases |ops|
  {
    if ops == [] then None
    else if ops[0].Complete? then Some(ops[0].response)
    else FirstCompletion(ops[1..])
  }

  /** The last action set before the first completion. */
  function LastAction<R>(ops: seq<Operation<R>>, sofar: Option<nat>): Option<nat>
    decreases |ops|
  {
    if ops == [] then sofar
    else if ops[0].Complete? then None
    else LastAction(ops[1..], if ops[0].SetCancel? then Some(ops[0].action) else sofar)
  }

  lemma {:induction false} CompletedStays<R>(c: Cell<R>, ops: seq<Operation<R>>)
    requires c.response.Some?
    ensures Run(c, ops) == c
    decreases |ops|
  {
    if ops != [] {
      CompletedStays(c, ops[1..]);
    }
  }

  lemma {:induction false} RunFrom<R>(c: Cell<R>, ops: seq<Operation<R>>)
    requires c.response.None?
    ensures Run(c, ops) == Cell(FirstCompletion(ops), LastAction(ops, c.cancel))
    decreases |ops|
  {
    if ops != [] {
      if ops[0].Complete? {
        CompletedStays(Apply(c, ops[0]), ops[1..]);
      } else {
        RunFrom(Apply(c, ops[0]), ops[1..]);
      }
    }
  }

  /** Main result: whatever the order of operations, the future holds the first completion, it keeps it
      whatever follows, and a completed future has nothing left to cancel. */
  lemma FirstCompletionWins<R>(before: seq<Operation<R>>, after: seq<Operation<R>>)
    ensures var c := Run(Empty<R>(), before);
      && c.response == FirstCompletion(before)
      && ActionOf(c) == LastAction(before, None)
      && (c.response.Some? ==> Run(c, after) == c && ActionOf(c) == None)
  {
    var c := Run(Empty<R>(), before);
    RunFrom(Empty<R>(), before);
    if c.response.Some? {
      CompletedStays(c, after);
    }
    CompletedHasNoAction(before, None);
  }

  lemma {:induction false} CompletedHasNoAction<R>(ops: seq<Operation<R>>, sofar: Option<nat>)
    ensures FirstCompletion(ops).Some? ==> LastAction(ops, sofar) == None
    decreases |ops|
  {
    if ops != [] && !ops[0].Complete? {
      CompletedHasNoAction(ops[1..], if ops[0].SetCancel? then Some(ops[0].action) else sofar);
    }
  }

  class State<R(0)> {
    var completed: bool
    var response: R
    var cancel: Option<nat>

    ghost function Value(): Cell<R>
      reads this
    {
      Cell(if completed then Some(response) else None, cancel)
    }

    constructor ()
      ensures Value() == Cell(None, None)
    {
      completed, cancel := false, None;
      response := *;
    }

    method Complete(value: R)
      modifies this
      ensures Value() == Apply(old(Value()), Operation.Complete(value))
    {
      if completed {
        return;
      }
      response, completed, cancel := value, true, None;
    }

    method SetCancel(action: nat)
      modifies this`cancel
      ensures Value() == Apply(old(Value()), Operation.SetCancel(action))
    {
      if !completed {
        cancel := Some(action);
      }
    }

    /** The action to call, if any. */
    method Cancel() returns (action: Option<nat>)
      ensures action == ActionOf(Value())
    {
      if completed {
        return None;
      }
      action := cancel;
    }
  }
}
