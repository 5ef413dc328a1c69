/** The queue of node ids of one message tree: a deque beside a membership index (messaging/trees/data.py). */
module SnapshotQueue {
  import opened Prelude

  datatype State = State(items: seq<string>, index: set<string>)

  const Empty: State := State([], {})

  function Put(q: State, item: string): State {
    State(q.items + [item], q.index + {item})
  }

  function Get(q: State): State
    requires q.items != []
  {
    State(q.items[1..], q.index - {q.items[0]})
  }

  function Remove(q: State, item: string): State {
    if item in q.index then State(Without(q.items, item), q.index - {item}) else q
  }

  class SnapshotQueue {
    var deque: seq<string>
    var index: set<string>

    function Contents(): State
      reads this
    {
      State(deque, index)
    }

    constructor ()
      ensures Contents() == Empty
    {
      deque, index := [], {};
    }

    method PutNowait(item: string)
      modifies this
      ensures Contents() == Put(old(Contents()), item)
    {
      deque := deque + [item];
      index := index + {item};
    }

    /** Nothing stands for the empty queue's exception. */
    method GetNowait() returns (r: Option<string>)
      modifies this
      ensures r.None? <==> old(deque) == []
      ensures r.None? ==> Contents() == old(Contents())
      ensures r.Some? ==> r.value == old(deque)[0] && Contents() == Get(old(Contents()))
    {
      if deque == [] { return None; }
      r := Some(deque[0]);
      deque := deque[1..];
      index := index - {r.value};
    }

    method RemoveIfPresent(item: string) returns (removed: bool)
      modifies this
      ensures removed == (item in old(index)) && Contents() == Remove(old(Contents()), item)
    {
      if item !in index { return false; }
      index := index - {item};
      var kept: seq<string> := [];
      for i := 0 to |deque|
        invariant kept == Without(deque[..i], item) && deque == old(deque) && index == old(index) - {item}
      {
        assert deque[..i + 1][..i] == deque[..i];
        if deque[i] != item { kept := kept + [deque[i]]; }
      }
      assert deque[..|deque|] == deque;
      deque := kept;
      return true;
    }
  }

  // ---------------------------------------------------------------------------------------------
  // The index is right exactly as long as no waiting item is put again.

  datatype Op = Enter(item: string) | Leave | Drop(item: string)

  function Step(q: State, op: Op): State {
    match op
    case Enter(item) => Put(q, item)
    case Leave => if q.items == [] then q else Get(q)
    case Drop(item) => Remove(q, item)
  }

  ghost predicate Exact(q: State) {
    q.index == Elements(q.items)
  }

  /** With distinct items and an exact index, putting a new item, taking and removing keep both. */
  lemma StepExact(q: State, op: Op)
    requires Exact(q) && Distinct(q.items)
    ensures Exact(Step(q, op))
    ensures Distinct(Step(q, op).items) <==> (op.Enter? ==> op.item !in q.items)
  {
    match op
    case Enter(item) =>
      if item in q.items {
        var i :| 0 <= i < |q.items| && q.items[i] == item;
        var s := q.items + [item];
        assert s[i] == s[|q.items|];
      } else {
        DistinctSnoc(q.items, item);
      }
    case Leave =>
      if q.items != [] { assert q.items == [q.items[0]] + q.items[1..]; }
    case Drop(item) => WithoutDistinct(q.items, item);
  }

  /** Taking the head breaks the index exactly when another copy of it is waiting. */
  lemma GetKeepsIndex(q: State)
    requires Exact(q) && q.items != []
    ensures Exact(Get(q)) <==> q.items[0] !in q.items[1..]
  {
    assert q.items == [q.items[0]] + q.items[1..];
    if Exact(Get(q)) { assert q.items[0] !in Get(q).index; }
    if q.items[0] !in q.items[1..] {
      assert Get(q).index == Elements(q.items[1..]);
    }
  }

  /** An item put twice and taken once is still waiting, and can no longer be removed. */
  lemma SecondCopyCannotBeRemoved(item: string)
    ensures var q := Get(Put(Put(Empty, item), item));
            item in q.items && item !in q.index && Remove(q, item) == q
  {
    assert ([] + [item] + [item])[1..] == [item];
  }
}
