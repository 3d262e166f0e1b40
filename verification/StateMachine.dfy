/** Table-driven state machines. */
module StateMachine {
  import opened Common

  /** The states of the streamer and of every session. */
  datatype State = Started | Preparing | Buffering | Playing | Draining | Stopped

  /** What the first row for an event and a state says, if there is one. */
  datatype Step<A, G> = Step(to: State, action: A, guard: G)

  datatype Row<E, A, G> = Row(event: E, from: State, to: State, action: A, guard: G)

  /** How an event was dealt with: no row, a row whose guard failed, or a transition. */
  datatype Verdict = Missing | Refused | Done

  predicate Matches<E(==), A, G>(row: Row<E, A, G>, event: E, state: State) {
    row.event == event && row.from == state
  }

  function StepOf<E, A, G>(row: Row<E, A, G>): Step<A, G> {
    Step(row.to, row.action, row.guard)
  }

  function Find<E(==), A, G>(rows: seq<Row<E, A, G>>, event: E, state: State): Option<Step<A, G>>
    decreases |rows|
  {
    if rows == [] then None
    else if Matches(rows[0], event, state) then Some(StepOf(rows[0]))
    else Find(rows[1..], event, state)
  }

  lemma {:induction false} FindsFirst<E, A, G>(rows: seq<Row<E, A, G>>, k: nat)
    requires k < |rows|
    requires forall j :: 0 <= j < k ==> !Matches(rows[j], rows[k].event, rows[k].from)
    ensures Find(rows, rows[k].event, rows[k].from) == Some(StepOf(rows[k]))
    decreases |rows|
  {
    if k > 0 {
      FindsFirst(rows[1..], k - 1);
    }
  }

  lemma {:induction false} FindsNothing<E, A, G>(rows: seq<Row<E, A, G>>, event: E, state: State)
    requires forall j :: 0 <= j < |rows| ==> !Matches(rows[j], event, state)
    ensures Find(rows, event, state) == None
    decreases |rows|
  {
    if rows != [] {
      FindsNothing(rows[1..], event, state);
    }
  }

  lemma {:induction false} FindConcat<E, A, G>(a: seq<Row<E, A, G>>, b: seq<Row<E, A, G>>, event: E, state: State)
    ensures Find(a + b, event, state)
         == if Find(a, event, state).Some? then Find(a, event, state) else Find(b, event, state)
    decreases |a|
  {
    if a == [] {
      assert a + b == b;
    } else {
      assert (a + b)[1..] == a[1..] + b;
      FindConcat(a[1..], b, event, state);
    }
  }

  /** In a table made of groups, only the group that knows the event matters. */
  lemma {:induction false} FindInGroup<E, A, G>(groups: seq<seq<Row<E, A, G>>>, k: nat, event: E, state: State)
    requires k < |groups|
    requires forall j :: 0 <= j < |groups| && j != k ==> Find(groups[j], event, state) == None
    ensures Find(Flatten(groups), event, state) == Find(groups[k], event, state)
    decreases |groups|
  {
    FindConcat(groups[0], Flatten(groups[1..]), event, state);
    if k > 0 {
      FindInGroup(groups[1..], k - 1, event, state);
    } else {
      FindInNoGroup(groups[1..], event, state);
    }
  }

  lemma {:induction false} FindInNoGroup<E, A, G>(groups: seq<seq<Row<E, A, G>>>, event: E, state: State)
    requires forall j :: 0 <= j < |groups| ==> Find(groups[j], event, state) == None
    ensures Find(Flatten(groups), event, state) == None
    decreases |groups|
  {
    if groups != [] {
      FindConcat(groups[0], Flatten(groups[1..]), event, state);
      FindInNoGroup(groups[1..], event, state);
    }
  }

  /** The search loop. */
  method Search<E(==), A, G>(transitions: seq<Row<E, A, G>>, event: E, state: State) returns (found: Option<Step<A, G>>)
    ensures found == Find(transitions, event, state)
  {
    var i := 0;
    while i < |transitions|
      invariant 0 <= i <= |transitions|
      invariant Find(transitions, event, state) == Find(transitions[i..], event, state)
    {
      if Matches(transitions[i], event, state) {
        return Some(StepOf(transitions[i]));
      }
      assert transitions[i..][1..] == transitions[i + 1..];
      i := i + 1;
    }
    return None;
  }
}
