/** The collect-all-errors helper: an `errors(message)` block yields one
    `maybe_context` guard that catches an exception into a shared list, and
    raises one ExceptionGroup at the end if anything was caught. */
module Collect {
  import opened Errors

  /** The message `errors` uses when none is given. */
  const DefaultMessage: string := "Caught some exceptions"

  /** The message of an `errors(...)` block: the one passed, or the default. */
  function MessageOf(message: Option<string>): (m: string)
    ensures message.None? ==> m == DefaultMessage
    ensures message.Some? ==> m == message.value
  {
    if message.Some? then message.value else DefaultMessage
  }

  /** The `caught` list shared by an `errors` block and its guard. */
  class Collector {
    var caught: seq<Exception>

    constructor ()
      ensures caught == []
    {
      caught := [];
    }
  }

  /** `maybe_context(caught)` around a block that raised `outcome` or
      completed normally: a raised exception is appended and swallowed. */
  method MaybeContext(c: Collector, outcome: Option<Exception>)
    modifies c
    ensures c.caught == old(c.caught) + Raises(outcome)
  {
    if outcome.Some? {
      c.caught := c.caught + [outcome.value];
    }
  }

  /** What a second `with` on a consumed guard raises: entering drops the
      guard's stored arguments, and they are already gone. */
  const Reentered: Exception := AttributeError("args")

  /** What calling a `@maybe`-decorated function raises once the guard has
      been consumed by a `with`: the guard can no longer rebuild itself. */
  const NotRebuildable: Exception := AttributeError("func")

  /** The guard object an `errors` block yields: one generator-based context
      manager. A `with` on it consumes it. As a decorator, while unconsumed,
      it builds a fresh guard for every call, so decorated calls can repeat. */
  class Guard {
    const collector: Collector
    var spent: bool

    constructor (collector: Collector)
      ensures this.collector == collector && !spent
    {
      this.collector := collector;
      spent := false;
    }

    /** `with maybe: block`: the exception leaving the `with` statement, if
        any. Only the first `with` runs its block. */
    method With(outcome: Option<Exception>) returns (escaped: Option<Exception>)
      modifies this, collector
      ensures spent
      ensures old(spent) ==> escaped == Some(Reentered) && collector.caught == old(collector.caught)
      ensures !old(spent) ==> escaped.None? && collector.caught == old(collector.caught) + Raises(outcome)
    {
      if spent {
        return Some(Reentered);
      }
      spent := true;
      MaybeContext(collector, outcome);
      escaped := None;
    }

    /** A call of a function decorated with `@maybe`: the exception leaving
        the call, if any. */
    method Call(outcome: Option<Exception>) returns (escaped: Option<Exception>)
      modifies collector
      ensures spent ==> escaped == Some(NotRebuildable) && collector.caught == old(collector.caught)
      ensures !spent ==> escaped.None? && collector.caught == old(collector.caught) + Raises(outcome)
    {
      if spent {
        return Some(NotRebuildable);
      }
      MaybeContext(collector, outcome);
      escaped := None;
    }
  }

  /** The exception a block raised, as a list of at most one. */
  function Raises(outcome: Option<Exception>): seq<Exception>
  {
    if outcome.Some? then [outcome.value] else []
  }

  /** One statement of the body of an `errors` block, seen through what its
      own code raised: a `with maybe:` block, a call of a function decorated
      with `@maybe`, or a statement outside any guard. */
  datatype Statement =
    | WithGuard(outcome: Option<Exception>)
    | GuardedCall(outcome: Option<Exception>)
    | Unguarded(outcome: Option<Exception>)

  /** An exception leaves the body at this statement: an unguarded raise, or
      any use of a guard that a `with` has consumed. */
  predicate Stops(s: Statement, spent: bool)
  {
    (s.Unguarded? && s.outcome.Some?) || (spent && !s.Unguarded?)
  }

  /** Whether the guard is consumed after the statement. */
  function SpentBy(s: Statement, spent: bool): bool
  {
    spent || s.WithGuard?
  }

  /** The exception leaving the body at a statement that stops it. */
  function Escape(s: Statement, spent: bool): (e: Exception)
    requires Stops(s, spent)
    ensures s.Unguarded? ==> e == s.outcome.value
    ensures s.WithGuard? ==> e == Reentered
    ensures s.GuardedCall? ==> e == NotRebuildable
  {
    if s.Unguarded? then s.outcome.value else if s.WithGuard? then Reentered else NotRebuildable
  }

  /** What one statement adds to the list. */
  function Effect(s: Statement, spent: bool): seq<Exception>
  {
    if Stops(s, spent) then [Escape(s, spent)] else Raises(s.outcome)
  }

  /** Some statement of `body` leaves it. */
  predicate StopsIn(body: seq<Statement>, spent: bool)
  {
    body != [] && (Stops(body[0], spent) || StopsIn(body[1..], SpentBy(body[0], spent)))
  }

  /** Whether the guard is consumed once `body` has run. */
  function SpentAfter(body: seq<Statement>, spent: bool): bool
  {
    if body == [] then spent else SpentAfter(body[1..], SpentBy(body[0], spent))
  }

  /** What the `caught` list holds when the body has finished or left. The
      guard starts out as `spent` says. Every exception raised by a
      statement that ran is in the list, in order. */
  function CaughtFrom(body: seq<Statement>, spent: bool): (r: seq<Exception>)
    ensures |r| <= |body|
  {
    if body == [] then []
    else Effect(body[0], spent) + if Stops(body[0], spent) then [] else CaughtFrom(body[1..], SpentBy(body[0], spent))
  }

  /** The list after a whole body, which starts with an unconsumed guard. */
  function Caught(body: seq<Statement>): (r: seq<Exception>)
    ensures |r| <= |body|
  {
    CaughtFrom(body, false)
  }

  /** Runs one statement of the body with the guard `maybe`: the exception
      leaving the statement, if any. */
  method RunStatement(maybe: Guard, s: Statement) returns (escaped: Option<Exception>)
    modifies maybe, maybe.collector
    ensures maybe.spent == SpentBy(s, old(maybe.spent))
    ensures escaped.Some? <==> Stops(s, old(maybe.spent))
    ensures escaped.Some? ==> escaped.value == Escape(s, old(maybe.spent)) && maybe.collector.caught == old(maybe.collector.caught)
    ensures escaped.None? ==> maybe.collector.caught == old(maybe.collector.caught) + Raises(s.outcome)
  {
    match s {
      case WithGuard(o) => escaped := maybe.With(o);
      case GuardedCall(o) => escaped := maybe.Call(o);
      case Unguarded(o) =>
        escaped := o;
        assert o.None? ==> Raises(o) == [] && maybe.collector.caught + [] == maybe.collector.caught;
    }
  }

  /** The first statement of a non-empty body, and the rest. */
  lemma Unfold(body: seq<Statement>, spent: bool)
    requires body != []
    ensures CaughtFrom(body, spent)
         == Effect(body[0], spent) + if Stops(body[0], spent) then [] else CaughtFrom(body[1..], SpentBy(body[0], spent))
    ensures StopsIn(body, spent) <==> Stops(body[0], spent) || StopsIn(body[1..], SpentBy(body[0], spent))
    ensures SpentAfter(body, spent) == SpentAfter(body[1..], SpentBy(body[0], spent))
  {
  }

  /** `with errors(message) as maybe: body`: the exception it raises, if any,
      and the collector list as it is left afterwards. */
  method RunErrors(message: Option<string>, body: seq<Statement>) returns (raised: Option<Exception>, c: Collector)
    ensures raised == GroupOf(Text(MessageOf(message)), Caught(body))
    ensures c.caught == []
  {
    c := new Collector();
    var maybe := new Guard(c);
    var i := 0;
    while i < |body|
      invariant 0 <= i <= |body|
      invariant maybe.collector == c
      invariant c.caught + CaughtFrom(body[i..], maybe.spent) == Caught(body)
    {
      ghost var spent := maybe.spent;
      ghost var before := c.caught;
      Unfold(body[i..], spent);
      assert body[i..][0] == body[i] && body[i..][1..] == body[i + 1..];
      var escaped := RunStatement(maybe, body[i]);
      if escaped.Some? {
        c.caught := c.caught + [escaped.value];
        assert [escaped.value] + [] == [escaped.value];
        break;
      }
      AppendAssoc(before, Raises(body[i].outcome), CaughtFrom(body[i + 1..], maybe.spent));
      i := i + 1;
    }
    if i == |body| {
      assert body[i..] == [];
      assert c.caught + [] == c.caught;
    }
    assert c.caught == Caught(body);
    raised := GroupOf(Text(MessageOf(message)), c.caught);
    if raised.Some? {
      c.caught := [];
    }
  }

  // ---------------------------------------------------------------------
  // Properties of errors and maybe_context

  /** Running two stretches of a body one after the other: the second runs
      exactly when nothing in the first left the body, and starts with the
      guard as the first left it. */
  lemma {:induction false} CaughtAppend(a: seq<Statement>, b: seq<Statement>, spent: bool)
    ensures CaughtFrom(a + b, spent)
         == CaughtFrom(a, spent) + if StopsIn(a, spent) then [] else CaughtFrom(b, SpentAfter(a, spent))
  {
    if a == [] {
      assert a + b == b;
    } else if Stops(a[0], spent) {
      Unfold(a, spent);
      Unfold(a + b, spent);
      assert (a + b)[0] == a[0];
    } else {
      var t := a[1..];
      var next := SpentBy(a[0], spent);
      CaughtAppend(t, b, next);
      ConsAppend(a, b, spent);
    }
  }

  /** One step of the induction above: a first statement that does not stop
      the body puts its effect in front of the rest. */
  lemma ConsAppend(a: seq<Statement>, b: seq<Statement>, spent: bool)
    requires a != [] && !Stops(a[0], spent)
    requires var t := a[1..]; var next := SpentBy(a[0], spent);
      CaughtFrom(t + b, next) == CaughtFrom(t, next) + if StopsIn(t, next) then [] else CaughtFrom(b, SpentAfter(t, next))
    ensures CaughtFrom(a + b, spent)
         == CaughtFrom(a, spent) + if StopsIn(a, spent) then [] else CaughtFrom(b, SpentAfter(a, spent))
  {
    var t := a[1..];
    var next := SpentBy(a[0], spent);
    var e := Effect(a[0], spent);
    var tail := if StopsIn(t, next) then [] else CaughtFrom(b, SpentAfter(t, next));
    Unfold(a, spent);
    Unfold(a + b, spent);
    assert (a + b)[0] == a[0];
    assert (a + b)[1..] == t + b;
    AppendAssoc(e, CaughtFrom(t, next), tail);
  }

  /** The statement right after `before` runs with the guard as `before`
      left it. */
  lemma AfterPrefix(before: seq<Statement>, s: Statement, after: seq<Statement>)
    requires !StopsIn(before, false)
    ensures Caught(before + [s] + after) == Caught(before) + CaughtFrom([s] + after, SpentAfter(before, false))
  {
    assert before + [s] + after == before + ([s] + after);
    CaughtAppend(before, [s] + after, false);
  }

  /** The first `with maybe:` catches the exception of its block, and the
      statements after it still run, their exceptions following it. */
  lemma FirstWithCatches(before: seq<Statement>, e: Exception, after: seq<Statement>)
    requires !StopsIn(before, false) && !SpentAfter(before, false)
    ensures Caught(before + [WithGuard(Some(e))] + after) == Caught(before) + [e] + CaughtFrom(after, true)
  {
    AfterPrefix(before, WithGuard(Some(e)), after);
    var m := [WithGuard(Some(e))] + after;
    assert m[0] == WithGuard(Some(e)) && m[1..] == after;
    assert CaughtFrom(m, false) == [e] + CaughtFrom(after, true);
    AppendAssoc(Caught(before), [e], CaughtFrom(after, true));
  }

  /** A second `with maybe:` raises AttributeError before its block runs;
      the error leaves the body, is appended last, and nothing after it
      runs. */
  lemma SecondWithFails(before: seq<Statement>, outcome: Option<Exception>, after: seq<Statement>)
    requires !StopsIn(before, false) && SpentAfter(before, false)
    ensures Caught(before + [WithGuard(outcome)] + after) == Caught(before) + [Reentered]
  {
    AfterPrefix(before, WithGuard(outcome), after);
    var m := [WithGuard(outcome)] + after;
    assert m[0] == WithGuard(outcome);
    assert CaughtFrom(m, true) == [Reentered] + [];
    assert [Reentered] + [] == [Reentered];
  }

  /** Two `with maybe:` blocks that both raise: the first exception is
      caught, the second block never runs, and the list ends with the
      AttributeError of the second entry. */
  lemma TwoWithBlocks(e1: Exception, e2: Exception)
    ensures Caught([WithGuard(Some(e1)), WithGuard(Some(e2))]) == [e1, Reentered]
  {
    var body := [WithGuard(Some(e1)), WithGuard(Some(e2))];
    assert body[1..] == [WithGuard(Some(e2))];
    assert body[1..][1..] == [];
    assert CaughtFrom(body[1..], true) == [Reentered] + [];
  }

  /** Calls of `@maybe`-decorated functions, while no `with` has consumed the
      guard, each catch their own exception and let the body go on. */
  lemma GuardedCallContinues(before: seq<Statement>, e: Exception, after: seq<Statement>)
    requires !StopsIn(before, false) && !SpentAfter(before, false)
    ensures Caught(before + [GuardedCall(Some(e))] + after) == Caught(before) + [e] + Caught(after)
  {
    AfterPrefix(before, GuardedCall(Some(e)), after);
    var m := [GuardedCall(Some(e))] + after;
    assert m[0] == GuardedCall(Some(e)) && m[1..] == after;
    assert CaughtFrom(m, false) == [e] + CaughtFrom(after, false);
    AppendAssoc(Caught(before), [e], Caught(after));
  }

  /** A guard whose block completes normally adds nothing; the first `with`
      still consumes the guard. */
  lemma QuietGuard(before: seq<Statement>, s: Statement, after: seq<Statement>)
    requires s == WithGuard(None) || s == GuardedCall(None)
    requires !StopsIn(before, false) && !SpentAfter(before, false)
    ensures Caught(before + [s] + after) == Caught(before) + CaughtFrom(after, s.WithGuard?)
  {
    AfterPrefix(before, s, after);
    var m := [s] + after;
    assert m[0] == s && m[1..] == after;
    assert CaughtFrom(m, false) == [] + CaughtFrom(after, s.WithGuard?);
    assert [] + CaughtFrom(after, s.WithGuard?) == CaughtFrom(after, s.WithGuard?);
  }

  /** An exception leaving the body itself is appended after those already
      caught, and nothing after it runs. */
  lemma UnguardedLast(before: seq<Statement>, e: Exception, after: seq<Statement>)
    requires !StopsIn(before, false)
    ensures Caught(before + [Unguarded(Some(e))] + after) == Caught(before) + [e]
  {
    AfterPrefix(before, Unguarded(Some(e)), after);
    var m := [Unguarded(Some(e))] + after;
    assert m[0] == Unguarded(Some(e));
    assert CaughtFrom(m, SpentAfter(before, false)) == [e] + [];
    assert [e] + [] == [e];
  }

  /** Nothing is caught exactly when nothing leaves the body and no block or
      statement raised. */
  lemma {:induction false} NothingCaughtIff(body: seq<Statement>, spent: bool)
    ensures CaughtFrom(body, spent) == [] <==>
      !StopsIn(body, spent) && forall k :: 0 <= k < |body| ==> body[k].outcome.None?
  {
    if body != [] {
      var next := SpentBy(body[0], spent);
      NothingCaughtIff(body[1..], next);
      if !Stops(body[0], spent) && body[0].outcome.None? {
        assert forall k :: 1 <= k < |body| ==> body[k] == body[1..][k - 1];
      }
    }
  }

  /** `errors` returns normally exactly when nothing leaves the body and no
      block raised; otherwise the group holds every caught exception in
      catch order, while the list itself is left empty. */
  lemma ErrorsRaisesIff(message: Option<string>, body: seq<Statement>)
    ensures var g := GroupOf(Text(MessageOf(message)), Caught(body));
      && (g.None? <==> !StopsIn(body, false) && forall k :: 0 <= k < |body| ==> body[k].outcome.None?)
      && (g.Some? ==> g.value.exceptions == Caught(body) != [])
  {
    NothingCaughtIff(body, false);
  }
}
