/**
  Processing the nodes of one message tree, one at a time (messaging/trees/queue_manager.py), as steps between
  which anything else may run: each region under the tree's lock is one step.
 */
module TreeQueue {
  import opened Prelude
  import opened MessageTree
  import Q = SnapshotQueue

  /** A request to process a node; tickets number the requests in order of arrival. */
  datatype Entry = Entry(ticket: nat, node: string)

  /** A live processing task: not begun, inside the processor, or past it and about to take the next entry. */
  datatype Task = Created(entry: Entry) | Running(entry: Entry) | Advancing(entry: Entry)

  /** An entry whose task began: its processor ran, or it was skipped because its node was in error. */
  datatype Turn = Turn(entry: Entry, ran: bool)

  /**
    The tree's node states, queue with its index, processing flag, current node and current task, and every live
    task; what follows is history: past turns, entries removed from the queue, and the number of requests.
   */
  datatype State = State(
    nodes: map<string, MessageState>, deque: seq<Entry>, index: set<string>,
    processing: bool, current: Option<string>, task: Option<Entry>, live: seq<Task>,
    turns: seq<Turn>, removed: seq<Entry>, requests: nat)

  const Initial: State := State(map[], [], {}, false, None, None, [], [], [], 0)

  // ---------------------------------------------------------------------------------------------
  // The steps.

  function Start(s: State, e: Entry): State {
    var s := s.(processing := true, current := Some(e.node));
    if e.node in s.nodes then s.(task := Some(e), live := s.live + [Created(e)]) else s
  }

  function Enqueue(s: State, node: string): State {
    var e := Entry(s.requests, node);
    var s := s.(requests := s.requests + 1);
    if s.processing then s.(deque := s.deque + [e], index := s.index + {node}) else Start(s, e)
  }

  /** A created task looks at its node and enters the processor, or skips it. */
  function Begin(s: State, i: nat): State
    requires i < |s.live| && s.live[i].Created?
  {
    var e := s.live[i].entry;
    if e.node in s.nodes && s.nodes[e.node] == Error then
      s.(live := s.live[i := Advancing(e)], turns := s.turns + [Turn(e, false)])
    else
      s.(live := s.live[i := Running(e)], turns := s.turns + [Turn(e, true)])
  }

  function SetState(s: State, node: string, state: MessageState): State {
    if node in s.nodes then s.(nodes := s.nodes[node := state]) else s
  }

  /** The processor returns, is cancelled, or fails and leaves its node in error; the current node is cleared. */
  function End(s: State, i: nat, failed: bool): State
    requires i < |s.live| && s.live[i].Running?
  {
    var e := s.live[i].entry;
    var s := if failed then SetState(s, e.node, Error) else s;
    s.(current := None, live := s.live[i := Advancing(e)])
  }

  /** The task takes the next entry and starts it, or frees the tree. An empty node id reads as an empty queue. */
  function Advance(s: State, i: nat): State
    requires i < |s.live| && s.live[i].Advancing?
  {
    var s := s.(live := s.live[..i] + s.live[i + 1..]);
    if s.deque == [] then s.(processing := false, current := None)
    else
      var e := s.deque[0];
      var s := s.(deque := s.deque[1..], index := s.index - {e.node});
      if e.node == "" then s.(processing := false, current := None) else Start(s, e)
  }

  function Others(entries: seq<Entry>, node: string): (r: seq<Entry>)
    ensures forall e :: e in r <==> e in entries && e.node != node
  {
    if entries == [] then []
    else
      Others(entries[..|entries| - 1], node)
      + if entries[|entries| - 1].node != node then [entries[|entries| - 1]] else []
  }

  function Same(entries: seq<Entry>, node: string): (r: seq<Entry>)
    ensures forall e :: e in r <==> e in entries && e.node == node
  {
    if entries == [] then []
    else
      Same(entries[..|entries| - 1], node)
      + if entries[|entries| - 1].node == node then [entries[|entries| - 1]] else []
  }

  /** A task cancelled before it begins never runs: not even its cleanup. */
  function DropCreated(live: seq<Task>, e: Entry): seq<Task> {
    if live == [] then []
    else
      DropCreated(live[..|live| - 1], e) + if live[|live| - 1] == Created(e) then [] else [live[|live| - 1]]
  }

  predicate Cancellable(s: State, node: string) {
    node in s.nodes && s.nodes[node] != Completed && s.nodes[node] != Error
  }

  /** A begun task gets the cancellation inside its processor, which then ends; that is an End of its own. */
  function Cancel(s: State, node: string): State {
    if !Cancellable(s, node) then s
    else
      var s := if s.current == Some(node) && s.task.Some? then s.(live := DropCreated(s.live, s.task.value)) else s;
      var s := if node in s.index then
                 s.(deque := Others(s.deque, node), index := s.index - {node}, removed := s.removed + Same(s.deque, node))
               else s;
      SetState(s, node, Error)
  }

  datatype Step = DoAdd(node: string) | DoSetState(node: string, state: MessageState) | DoEnqueue(node: string)
                | DoBegin(i: nat) | DoEnd(i: nat, failed: bool) | DoAdvance(i: nat) | DoCancel(node: string)

  /** A step that cannot happen in a state leaves it alone. */
  function Next(s: State, step: Step): State {
    match step
    case DoAdd(node) => if node in s.nodes then s else s.(nodes := s.nodes[node := Pending])
    case DoSetState(node, state) => SetState(s, node, state)
    case DoEnqueue(node) => Enqueue(s, node)
    case DoBegin(i) => if i < |s.live| && s.live[i].Created? then Begin(s, i) else s
    case DoEnd(i, failed) => if i < |s.live| && s.live[i].Running? then End(s, i, failed) else s
    case DoAdvance(i) => if i < |s.live| && s.live[i].Advancing? then Advance(s, i) else s
    case DoCancel(node) => Cancel(s, node)
  }

  function Run(s: State, steps: seq<Step>): State {
    if steps == [] then s else Next(Run(s, steps[..|steps| - 1]), steps[|steps| - 1])
  }

  // ---------------------------------------------------------------------------------------------
  // The processor object, each method one region under the lock.

  class TreeQueueProcessor {
    var nodes: map<string, MessageState>
    var deque: seq<Entry>
    var index: set<string>
    var isProcessing: bool
    var currentNodeId: Option<string>
    var currentTask: Option<Entry>
    var live: seq<Task>
    var requests: nat
    ghost var turns: seq<Turn>
    ghost var removed: seq<Entry>

    ghost function Now(): State
      reads this
    {
      State(nodes, deque, index, isProcessing, currentNodeId, currentTask, live, turns, removed, requests)
    }

    constructor ()
      ensures Now() == Initial
    {
      nodes, deque, index := map[], [], {};
      isProcessing, currentNodeId, currentTask := false, None, None;
      live, requests, turns, removed := [], 0, [], [];
    }

    method UpdateState(node: string, state: MessageState)
      modifies this
      ensures Now() == SetState(old(Now()), node, state)
    {
      if node in nodes { nodes := nodes[node := state]; }
    }

    method StartTask(e: Entry)
      modifies this
      ensures Now() == Start(old(Now()), e)
    {
      isProcessing, currentNodeId := true, Some(e.node);
      if e.node in nodes {
        currentTask := Some(e);
        live := live + [Created(e)];
      }
    }

    method EnqueueAndStart(node: string) returns (queued: bool)
      modifies this
      ensures queued == old(isProcessing) && Now() == Enqueue(old(Now()), node)
    {
      var e := Entry(requests, node);
      requests := requests + 1;
      if isProcessing {
        deque := deque + [e];
        index := index + {node};
        return true;
      }
      StartTask(e);
      return false;
    }

    /** The entry of a created task into its processor. */
    method ProcessNode(i: nat) returns (skipped: bool)
      requires i < |live| && live[i].Created?
      modifies this
      ensures Now() == Begin(old(Now()), i)
      ensures skipped == (old(live)[i].entry.node in nodes && nodes[old(live)[i].entry.node] == Error)
    {
      var e := live[i].entry;
      skipped := e.node in nodes && nodes[e.node] == Error;
      live := live[i := if skipped then Advancing(e) else Running(e)];
      turns := turns + [Turn(e, !skipped)];
    }

    /** The end of a processor, in whichever way. */
    method FinishNode(i: nat, failed: bool)
      requires i < |live| && live[i].Running?
      modifies this
      ensures Now() == End(old(Now()), i, failed)
    {
      var e := live[i].entry;
      if failed { UpdateState(e.node, Error); }
      currentNodeId := None;
      live := live[i := Advancing(e)];
    }

    method ProcessNext(i: nat)
      requires i < |live| && live[i].Advancing?
      modifies this
      ensures Now() == Advance(old(Now()), i)
    {
      live := live[..i] + live[i + 1..];
      if deque == [] {
        isProcessing, currentNodeId := false, None;
        return;
      }
      var e := deque[0];
      deque := deque[1..];
      index := index - {e.node};
      if e.node == "" {
        isProcessing, currentNodeId := false, None;
      } else {
        StartTask(e);
      }
    }

    method CancelNode(node: string) returns (cancelled: bool)
      modifies this
      ensures cancelled == Cancellable(old(Now()), node) && Now() == Cancel(old(Now()), node)
    {
      if node !in nodes || nodes[node] == Completed || nodes[node] == Error { return false; }
      if currentNodeId == Some(node) && currentTask.Some? { live := DropCreated(live, currentTask.value); }
      if node in index {
        removed := removed + Same(deque, node);
        index := index - {node};
        deque := Others(deque, node);
      }
      UpdateState(node, Error);
      return true;
    }
  }

  // ---------------------------------------------------------------------------------------------
  // The invariant.

  function TurnEntries(turns: seq<Turn>): seq<Entry> {
    if turns == [] then [] else TurnEntries(turns[..|turns| - 1]) + [turns[|turns| - 1].entry]
  }

  function CreatedEntries(live: seq<Task>): seq<Entry> {
    if live == [] then []
    else
      CreatedEntries(live[..|live| - 1])
      + if live[|live| - 1].Created? then [live[|live| - 1].entry] else []
  }

  /** The entries whose turn is past, at hand or to come, in that order. */
  function Line(s: State): seq<Entry> {
    TurnEntries(s.turns) + CreatedEntries(s.live) + s.deque
  }

  ghost predicate InOrder(line: seq<Entry>) {
    forall i, j :: 0 <= i < j < |line| ==> line[i].ticket < line[j].ticket
  }

  ghost predicate HasTicket(entries: seq<Entry>, ticket: nat) {
    exists e :: e in entries && e.ticket == ticket
  }

  /** Every request is either in the line, once and in its place, or was removed. */
  ghost predicate Accounted(line: seq<Entry>, removed: seq<Entry>, requests: nat) {
    && InOrder(line)
    && (forall e :: e in line || e in removed ==> e.ticket < requests)
    && (forall e, r :: e in line && r in removed ==> e.ticket != r.ticket)
    && (forall k: nat :: k < requests ==> HasTicket(line, k) || HasTicket(removed, k))
  }

  /** One task drives a busy tree, and nothing waits in a free one. */
  ghost predicate Driven(s: State) {
    if s.processing then |s.live| == 1 else s.live == [] && s.deque == [] && s.current.None?
  }

  /** The one task is the current one, and its node the current node until it has ended. */
  ghost predicate AtHand(s: State) {
    |s.live| == 1 ==>
      && s.task == Some(s.live[0].entry)
      && (!s.live[0].Advancing? ==> s.current == Some(s.live[0].entry.node))
  }

  /** What waits can be started. */
  ghost predicate Waiting(s: State) {
    forall e :: e in s.deque ==> e.node in s.nodes && e.node != ""
  }

  ghost predicate Inv(s: State) {
    Driven(s) && AtHand(s) && Waiting(s) && Accounted(Line(s), s.removed, s.requests)
  }

  lemma InOrderSnoc(line: seq<Entry>, e: Entry)
    ensures InOrder(line + [e]) <==> InOrder(line) && forall x :: x in line ==> x.ticket < e.ticket
  {
    var all := line + [e];
    if InOrder(all) {
      assert forall i, j :: 0 <= i < j < |line| ==> all[i] == line[i] && all[j] == line[j];
      forall x | x in line
        ensures x.ticket < e.ticket
      {
        var i :| 0 <= i < |line| && line[i] == x;
        assert all[i] == x && all[|line|] == e;
      }
    }
  }

  lemma TicketsDiffer(line: seq<Entry>, a: Entry, b: Entry)
    requires InOrder(line) && a in line && b in line
    ensures a != b ==> a.ticket != b.ticket
  {
    var i :| 0 <= i < |line| && line[i] == a;
    var j :| 0 <= j < |line| && line[j] == b;
  }

  lemma FrontInOrder(front: seq<Entry>, back: seq<Entry>)
    requires InOrder(front + back)
    ensures InOrder(front) && forall e, x :: e in front && x in back ==> e.ticket < x.ticket
  {
    var all := front + back;
    assert forall i :: 0 <= i < |front| ==> all[i] == front[i];
    forall e, x | e in front && x in back
      ensures e.ticket < x.ticket
    {
      var i :| 0 <= i < |front| && front[i] == e;
      var j :| 0 <= j < |back| && back[j] == x;
      assert all[i] == e && all[|front| + j] == x;
    }
  }

  lemma AppendAccounted(line: seq<Entry>, removed: seq<Entry>, requests: nat, node: string)
    requires Accounted(line, removed, requests)
    ensures Accounted(line + [Entry(requests, node)], removed, requests + 1)
  {
    var e := Entry(requests, node);
    InOrderSnoc(line, e);
    forall k: nat | k < requests + 1
      ensures HasTicket(line + [e], k) || HasTicket(removed, k)
    {
      if k == requests {
        assert e in line + [e];
      } else if HasTicket(line, k) {
        var x :| x in line && x.ticket == k;
        assert x in line + [e];
      }
    }
  }

  lemma {:induction false} OthersInOrder(front: seq<Entry>, deque: seq<Entry>, node: string)
    requires InOrder(front + deque)
    ensures InOrder(front + Others(deque, node))
  {
    if deque != [] {
      var rest, last := deque[..|deque| - 1], deque[|deque| - 1];
      assert front + deque == (front + rest) + [last];
      InOrderSnoc(front + rest, last);
      OthersInOrder(front, rest, node);
      if last.node != node {
        assert front + Others(deque, node) == (front + Others(rest, node)) + [last];
        InOrderSnoc(front + Others(rest, node), last);
      } else {
        assert Others(rest, node) + [] == Others(rest, node);
      }
    }
  }

  lemma RemoveAccounted(front: seq<Entry>, deque: seq<Entry>, removed: seq<Entry>, requests: nat, node: string)
    requires Accounted(front + deque, removed, requests)
    ensures Accounted(front + Others(deque, node), removed + Same(deque, node), requests)
  {
    var line, line', removed' := front + deque, front + Others(deque, node), removed + Same(deque, node);
    OthersInOrder(front, deque, node);
    assert forall e :: e in line <==> e in front || e in deque;
    assert forall e :: e in line' <==> e in front || e in Others(deque, node);
    assert forall e :: e in removed' <==> e in removed || e in Same(deque, node);
    forall e, r | e in line' && r in removed'
      ensures e.ticket != r.ticket
    {
      if e.ticket == r.ticket { SeparateTickets(front, deque, removed, requests, node, e, r); }
    }
    forall k: nat | k < requests
      ensures HasTicket(line', k) || HasTicket(removed', k)
    {
      if HasTicket(line, k) {
        var x :| x in line && x.ticket == k;
        assert x in line' || x in removed';
      } else {
        var x :| x in removed && x.ticket == k;
        assert x in removed';
      }
    }
  }

  lemma SeparateTickets(front: seq<Entry>, deque: seq<Entry>, removed: seq<Entry>, requests: nat, node: string,
                        e: Entry, r: Entry)
    requires Accounted(front + deque, removed, requests)
    requires e in front || e in Others(deque, node)
    requires r in removed || r in Same(deque, node)
    ensures e.ticket != r.ticket
  {
    var line := front + deque;
    assert e in line;
    if r in Same(deque, node) {
      if e in front {
        FrontInOrder(front, deque);
      } else {
        assert r in line;
        TicketsDiffer(line, e, r);
      }
    }
  }

  // ---------------------------------------------------------------------------------------------
  // Which steps keep it.

  /** The cancellation hits a task that has not begun. */
  predicate CancelsUnbegun(s: State, node: string) {
    Cancellable(s, node) && s.current == Some(node) && s.live != [] && s.live[0].Created?
  }

  /** Requests name nodes of the tree, waiting ones not the empty id; cancellations hit begun tasks. */
  predicate GoodStep(s: State, step: Step) {
    match step
    case DoEnqueue(node) => node in s.nodes && (s.processing ==> node != "")
    case DoCancel(node) => !CancelsUnbegun(s, node)
    case _ => true
  }

  lemma SingleLive(live: seq<Task>)
    requires |live| == 1
    ensures CreatedEntries(live) == if live[0].Created? then [live[0].entry] else []
    ensures forall e :: DropCreated(live, e) == if live[0] == Created(e) then [] else live
  {
    assert live == [live[0]] && live[..0] == [];
  }

  lemma TurnsSnoc(turns: seq<Turn>, t: Turn)
    ensures TurnEntries(turns + [t]) == TurnEntries(turns) + [t.entry]
  {
    assert (turns + [t])[..|turns|] == turns;
  }

  lemma Regroup(past: seq<Entry>, now: seq<Entry>, deque: seq<Entry>, e: Entry)
    ensures past + now + (deque + [e]) == past + now + deque + [e]
    ensures past + [e] + deque == (past + [e]) + [] + deque
  {
  }

  lemma QueuedLine(s: State, e: Entry)
    ensures Line(s.(deque := s.deque + [e])) == Line(s) + [e]
  {
    hide TurnEntries, CreatedEntries;
    Regroup(TurnEntries(s.turns), CreatedEntries(s.live), s.deque, e);
  }

  lemma StartedLine(s: State, e: Entry)
    requires s.live == [] && s.deque == []
    ensures Line(s.(live := [Created(e)])) == Line(s) + [e]
  {
    SingleLive([Created(e)]);
    assert CreatedEntries([Created(e)]) == [e] && CreatedEntries([]) == [];
    hide TurnEntries, CreatedEntries;
    var past := TurnEntries(s.turns);
    assert past + [e] + [] == past + [] + [] + [e];
  }

  lemma SameLine(s: State, s': State)
    requires s.turns == s'.turns && s.live == s'.live && s.deque == s'.deque
    ensures Line(s) == Line(s')
  {
  }

  lemma EnqueueLine(s: State, node: string)
    requires Driven(s)
    ensures s.processing || node in s.nodes ==> Line(Enqueue(s, node)) == Line(s) + [Entry(s.requests, node)]
  {
    var e := Entry(s.requests, node);
    var s' := Enqueue(s, node);
    hide Line;
    if s.processing {
      QueuedLine(s, e);
      SameLine(s.(deque := s.deque + [e]), s');
    } else if node in s.nodes {
      assert s.live + [Created(e)] == [Created(e)];
      StartedLine(s, e);
      SameLine(s.(live := [Created(e)]), s');
    }
  }

  lemma EnqueueKeepsInv(s: State, node: string)
    requires Inv(s)
    ensures Inv(Enqueue(s, node)) <==> node in s.nodes && (s.processing ==> node != "")
  {
    var e := Entry(s.requests, node);
    var s' := Enqueue(s, node);
    AppendAccounted(Line(s), s.removed, s.requests, node);
    EnqueueLine(s, node);
    hide Accounted, Line;
    if s.processing {
      assert s'.deque == s.deque + [e];
      assert e in s'.deque;
      assert forall x :: x in s'.deque <==> x in s.deque || x == e;
    } else {
      assert s.live + [Created(e)] == [Created(e)];
    }
  }

  lemma BeginLine(s: State)
    requires |s.live| == 1 && s.live[0].Created?
    ensures Line(Begin(s, 0)) == Line(s)
  {
    var e, past := s.live[0].entry, TurnEntries(s.turns);
    var s' := Begin(s, 0);
    SingleLive(s.live);
    SingleLive(s'.live);
    TurnsSnoc(s.turns, Turn(e, true));
    TurnsSnoc(s.turns, Turn(e, false));
    assert TurnEntries(s'.turns) == past + [e] && CreatedEntries(s'.live) == [] && s'.deque == s.deque;
    hide TurnEntries, CreatedEntries, Begin;
    Regroup(past, [], s.deque, e);
  }

  /** The one task moves on with its entry. */
  lemma MoveOn(s: State, s': State)
    requires Inv(s) && s.processing && s'.processing && |s'.live| == 1 && s.live[0].entry == s'.live[0].entry
    requires s'.live[0].Created? || s'.live[0].Running? ==> s'.current == s.current && !s.live[0].Advancing?
    requires s'.task == s.task && s'.deque == s.deque && s'.removed == s.removed && s'.requests == s.requests
    requires s.nodes.Keys == s'.nodes.Keys && Line(s') == Line(s)
    ensures Inv(s')
  {
    hide Line, Accounted;
  }

  lemma BeginKeepsInv(s: State)
    requires Inv(s) && s.live != [] && s.live[0].Created?
    ensures Inv(Begin(s, 0))
  {
    BeginLine(s);
    MoveOn(s, Begin(s, 0));
  }

  lemma EndKeepsInv(s: State, failed: bool)
    requires Inv(s) && s.live != [] && s.live[0].Running?
    ensures Inv(End(s, 0, failed))
  {
    var s' := End(s, 0, failed);
    SingleLive(s.live);
    SingleLive(s'.live);
    MoveOn(s, s');
  }

  lemma AdvanceLive(s: State)
    requires |s.live| == 1 && s.live[0].Advancing? && (forall e :: e in s.deque ==> e.node in s.nodes && e.node != "")
    ensures var s' := Advance(s, 0);
            && s'.live == (if s.deque == [] then [] else [Created(s.deque[0])])
            && s'.deque == (if s.deque == [] then [] else s.deque[1..])
            && s'.turns == s.turns
  {
    assert s.live[..0] + s.live[1..] == [];
    if s.deque != [] {
      var e := s.deque[0];
      assert e in s.deque;
      assert [] + [Created(e)] == [Created(e)];
    }
  }

  /** The head of the queue takes its place at the same position of the line. */
  lemma AdvanceLine(s: State)
    requires |s.live| == 1 && s.live[0].Advancing? && (forall e :: e in s.deque ==> e.node in s.nodes && e.node != "")
    ensures Line(Advance(s, 0)) == Line(s)
    ensures Advance(s, 0).live == if s.deque == [] then [] else [Created(s.deque[0])]
  {
    var past := TurnEntries(s.turns);
    assert CreatedEntries([]) == [];
    hide TurnEntries, CreatedEntries, Advance, DropCreated;
    AdvanceLive(s);
    SingleLive(s.live);
    if s.deque != [] {
      var e, rest := s.deque[0], s.deque[1..];
      assert s.deque == [e] + rest;
      SingleLive([Created(e)]);
      NothingMore(past);
      Associative(past, [e], rest);
    }
  }

  lemma AdvanceKeepsInv(s: State, i: nat)
    requires Inv(s) && i < |s.live| && s.live[i].Advancing?
    ensures Inv(Advance(s, i))
  {
    AdvanceLine(s);
    hide Line, Accounted;
    if s.deque != [] { assert s.deque[0] in s.deque; }
  }

  /** A cancellation takes the entry out of the line, and no other. */
  lemma CancelLine(s: State, node: string)
    requires Inv(s) && !CancelsUnbegun(s, node)
    ensures var s' := Cancel(s, node);
            && s'.live == s.live
            && Accounted(Line(s'), s'.removed, s'.requests)
            && (forall e :: e in s'.deque ==> e in s.deque)
  {
    var s' := Cancel(s, node);
    if |s.live| == 1 { SingleLive(s.live); }
    assert s'.live == s.live;
    hide Accounted, DropCreated;
    var front := TurnEntries(s.turns) + CreatedEntries(s.live);
    if Cancellable(s, node) && node in s.index { RemoveAccounted(front, s.deque, s.removed, s.requests, node); }
    assert Line(s) == front + s.deque && Line(s') == front + s'.deque;
  }

  lemma CancelKeepsInv(s: State, node: string)
    requires Inv(s) && !CancelsUnbegun(s, node)
    ensures Inv(Cancel(s, node))
  {
    CancelLine(s, node);
    hide Line, Accounted, DropCreated, Same, TurnEntries, CreatedEntries;
  }

  lemma UnbegunSticks(s: State, node: string)
    requires Inv(s) && CancelsUnbegun(s, node)
    ensures Stuck(Cancel(s, node))
  {
    SingleLive(s.live);
  }

  lemma CancelInv(s: State, node: string)
    requires Inv(s)
    ensures Inv(Cancel(s, node)) <==> !CancelsUnbegun(s, node)
  {
    if CancelsUnbegun(s, node) {
      UnbegunSticks(s, node);
      hide Cancel, CancelsUnbegun, Line;
    } else {
      CancelKeepsInv(s, node);
    }
  }

  lemma KeepLine(s: State, s': State)
    requires Inv(s) && s.nodes.Keys <= s'.nodes.Keys && s' == s.(nodes := s'.nodes)
    ensures Inv(s')
  {
    hide Accounted;
  }

  lemma NodesKeepInv(s: State, node: string, state: MessageState)
    requires Inv(s)
    ensures Inv(if node in s.nodes then s else s.(nodes := s.nodes[node := Pending]))
    ensures Inv(SetState(s, node, state))
  {
    hide Inv;
    if node !in s.nodes { KeepLine(s, s.(nodes := s.nodes[node := Pending])); }
    KeepLine(s, SetState(s, node, state));
  }

  lemma OneLive(s: State, i: nat)
    requires Inv(s) && i < |s.live|
    ensures i == 0
  {
    hide Accounted, Line;
  }

  /** Each step keeps the invariant exactly when it is good: enough, and needed. */
  lemma StepKeepsInv(s: State, step: Step)
    requires Inv(s)
    ensures Inv(Next(s, step)) <==> GoodStep(s, step)
  {
    hide Inv, Enqueue, Begin, End, Advance, Cancel, SetState, CancelsUnbegun;
    match step
    case DoAdd(node) => NodesKeepInv(s, node, Pending);
    case DoSetState(node, state) => NodesKeepInv(s, node, state);
    case DoEnqueue(node) => EnqueueKeepsInv(s, node);
    case DoBegin(i) => if i < |s.live| && s.live[i].Created? { OneLive(s, i); BeginKeepsInv(s); }
    case DoEnd(i, failed) => if i < |s.live| && s.live[i].Running? { OneLive(s, i); EndKeepsInv(s, failed); }
    case DoAdvance(i) => if i < |s.live| && s.live[i].Advancing? { AdvanceKeepsInv(s, i); }
    case DoCancel(node) => CancelInv(s, node);
  }

  ghost predicate GoodRun(s: State, steps: seq<Step>) {
    steps == [] || (GoodRun(s, steps[..|steps| - 1]) && GoodStep(Run(s, steps[..|steps| - 1]), steps[|steps| - 1]))
  }

  /** Whatever runs in between: at most one task, an empty queue when free, every request in its place. */
  lemma {:induction false} RunKeepsInv(s: State, steps: seq<Step>)
    requires Inv(s) && GoodRun(s, steps)
    ensures Inv(Run(s, steps))
  {
    if steps != [] {
      RunKeepsInv(s, steps[..|steps| - 1]);
      hide Inv, GoodStep, Next;
      StepKeepsInv(Run(s, steps[..|steps| - 1]), steps[|steps| - 1]);
    }
  }

  lemma InitialInv()
    ensures Inv(Initial)
  {
  }

  /** From the start: one processor at a time, a free tree has an empty queue, and turns come in order of request. */
  lemma TreeIsSafe(steps: seq<Step>)
    requires GoodRun(Initial, steps)
    ensures var s := Run(Initial, steps);
            && |s.live| <= 1
            && (!s.processing ==> s.live == [] && s.deque == [])
            && InOrder(TurnEntries(s.turns))
            && (forall e :: e in TurnEntries(s.turns) ==> e !in s.deque && e !in s.removed)
  {
    InitialInv();
    RunKeepsInv(Initial, steps);
    var s := Run(Initial, steps);
    PastIsPast(s);
  }

  lemma PastIsPast(s: State)
    requires Accounted(Line(s), s.removed, s.requests)
    ensures InOrder(TurnEntries(s.turns))
    ensures forall e :: e in TurnEntries(s.turns) ==> e !in s.deque && e !in s.removed
  {
    var past, rest := TurnEntries(s.turns), CreatedEntries(s.live) + s.deque;
    assert Line(s) == past + rest;
    FrontInOrder(past, rest);
    forall e | e in past
      ensures e !in s.deque && e !in s.removed
    {
      assert e in Line(s);
      assert forall x :: x in s.deque ==> x in rest;
    }
  }

  /** In a free tree every request had its one turn or was removed. */
  lemma FreeMeansDone(s: State, k: nat)
    requires Inv(s) && !s.processing && k < s.requests
    ensures HasTicket(TurnEntries(s.turns), k) || HasTicket(s.removed, k)
  {
    assert Line(s) == TurnEntries(s.turns);
  }

  // ---------------------------------------------------------------------------------------------
  // The queue is the snapshot queue of the waiting nodes' ids.

  function NodeIds(entries: seq<Entry>): seq<string> {
    if entries == [] then [] else NodeIds(entries[..|entries| - 1]) + [entries[|entries| - 1].node]
  }

  function Queue(s: State): Q.State {
    Q.State(NodeIds(s.deque), s.index)
  }

  lemma {:induction false} NodeIdsTail(entries: seq<Entry>)
    requires entries != []
    ensures NodeIds(entries) != [] && NodeIds(entries)[0] == entries[0].node
    ensures NodeIds(entries[1..]) == NodeIds(entries)[1..]
  {
    if |entries| > 1 {
      var front := entries[..|entries| - 1];
      NodeIdsTail(front);
      assert entries[1..][..|entries| - 2] == front[1..];
    } else {
      assert entries[..0] == [];
    }
  }

  lemma {:induction false} NodeIdsOthers(entries: seq<Entry>, node: string)
    ensures NodeIds(Others(entries, node)) == Without(NodeIds(entries), node)
  {
    if entries != [] {
      var front, last := entries[..|entries| - 1], entries[|entries| - 1];
      NodeIdsOthers(front, node);
      assert (NodeIds(front) + [last.node])[..|NodeIds(front)|] == NodeIds(front);
      assert (Others(front, node) + [last])[..|Others(front, node)|] == Others(front, node);
      assert Others(front, node) + [] == Others(front, node);
    }
  }

  lemma NodeIdsSnoc(entries: seq<Entry>, e: Entry)
    ensures NodeIds(entries + [e]) == NodeIds(entries) + [e.node]
  {
    assert (entries + [e])[..|entries|] == entries;
  }

  lemma CancelQueue(s: State, node: string)
    requires Cancellable(s, node)
    ensures Queue(Cancel(s, node)) == Q.Remove(Queue(s), node)
  {
    NodeIdsOthers(s.deque, node);
    hide NodeIds, Others, Same, DropCreated;
  }

  lemma AdvanceQueue(s: State, i: nat)
    requires i < |s.live| && s.live[i].Advancing? && s.deque != []
    ensures Queue(s).items != [] && Queue(Advance(s, i)) == Q.Get(Queue(s))
  {
    NodeIdsTail(s.deque);
    hide NodeIds;
  }

  lemma EnqueueQueue(s: State, node: string)
    requires s.processing
    ensures Queue(Enqueue(s, node)) == Q.Put(Queue(s), node)
  {
    NodeIdsSnoc(s.deque, Entry(s.requests, node));
    hide NodeIds;
  }

  /** Requests, turns and cancellations put, get and remove on that queue. */
  lemma QueueSteps(s: State, step: Step)
    ensures step.DoEnqueue? && s.processing ==> Queue(Next(s, step)) == Q.Put(Queue(s), step.node)
    ensures step.DoCancel? && Cancellable(s, step.node) ==> Queue(Next(s, step)) == Q.Remove(Queue(s), step.node)
    ensures step.DoAdvance? && step.i < |s.live| && s.live[step.i].Advancing? && s.deque != [] ==>
              Queue(s).items != [] && Queue(Next(s, step)) == Q.Get(Queue(s))
  {
    hide Queue, Enqueue, Cancel, Advance, Cancellable, Q.Put, Q.Remove, Q.Get;
    match step
    case DoEnqueue(node) => if s.processing { EnqueueQueue(s, node); }
    case DoCancel(node) => if Cancellable(s, node) { CancelQueue(s, node); }
    case DoAdvance(i) => if i < |s.live| && s.live[i].Advancing? && s.deque != [] { AdvanceQueue(s, i); }
    case _ =>
  }

  // ---------------------------------------------------------------------------------------------
  // A removed entry never runs.

  lemma RemovedGrows(s: State, step: Step)
    ensures forall e :: e in s.removed ==> e in Next(s, step).removed
  {
  }

  lemma {:induction false} RemovedStays(s: State, steps: seq<Step>, e: Entry)
    requires e in s.removed
    ensures e in Run(s, steps).removed
  {
    if steps != [] {
      RemovedStays(s, steps[..|steps| - 1], e);
      RemovedGrows(Run(s, steps[..|steps| - 1]), steps[|steps| - 1]);
    }
  }

  /** Cancelling a waiting node takes it out of the queue for good: its entry never gets a turn. */
  lemma CancelledNeverRuns(s: State, node: string, e: Entry, steps: seq<Step>)
    requires Inv(s) && !CancelsUnbegun(s, node) && Cancellable(s, node) && node in s.index
    requires e in s.deque && e.node == node
    requires GoodRun(Cancel(s, node), steps)
    ensures e !in TurnEntries(Run(Cancel(s, node), steps).turns)
  {
    var s' := Cancel(s, node);
    assert e in s'.removed;
    CancelKeepsInv(s, node);
    RunKeepsInv(s', steps);
    RemovedStays(s', steps, e);
    PastIsPast(Run(s', steps));
  }

  // ---------------------------------------------------------------------------------------------
  // A busy tree whose task is gone.

  ghost predicate Stuck(s: State) {
    s.processing && s.live == []
  }

  /** The step that a good run excludes leaves a busy tree without a task, unless it only queues a bad request. */
  lemma BadStepSticks(s: State, step: Step)
    requires Inv(s) && !GoodStep(s, step)
    ensures Stuck(Next(s, step)) <==> step.DoCancel? || !s.processing
  {
    if step.DoCancel? { UnbegunSticks(s, step.node); }
  }

  /** A queued request for a node outside the tree sticks when its turn comes. */
  lemma UnknownNodeSticks(s: State)
    requires s.live != [] && |s.live| == 1 && s.live[0].Advancing? && s.deque != []
    requires s.deque[0].node !in s.nodes && s.deque[0].node != ""
    ensures Stuck(Advance(s, 0))
  {
    assert s.live[..0] + s.live[1..] == [];
  }

  /** A queued empty id frees the tree over a waiting queue. */
  lemma EmptyIdStrandsQueue(s: State)
    requires |s.live| == 1 && s.live[0].Advancing? && |s.deque| > 1 && s.deque[0].node == ""
    ensures !Advance(s, 0).processing && Advance(s, 0).deque == s.deque[1..] && Advance(s, 0).deque != []
  {
  }

  /** Nothing ever starts again in a stuck tree: requests only pile up. */
  lemma {:induction false} StuckForever(s: State, steps: seq<Step>)
    requires Stuck(s)
    ensures Stuck(Run(s, steps)) && Run(s, steps).turns == s.turns
  {
    if steps != [] { StuckForever(s, steps[..|steps| - 1]); }
  }

  lemma RunOne(s: State, step: Step)
    ensures Run(s, [step]) == Next(s, step) && (GoodRun(s, [step]) <==> GoodStep(s, step))
  {
    hide Next, GoodStep;
    assert [step][..0] == [];
  }

  lemma RunTwo(s: State, a: Step, b: Step)
    ensures Run(s, [a, b]) == Next(Next(s, a), b)
    ensures GoodRun(s, [a, b]) <==> GoodStep(s, a) && GoodStep(Next(s, a), b)
  {
    hide Next, GoodStep;
    RunOne(s, a);
    assert [a, b][..1] == [a];
  }

  lemma StartSticks(s: State, node: string)
    requires node in s.nodes && s.nodes[node] == Pending && !s.processing && s.live == []
    ensures Stuck(Cancel(Enqueue(s, node), node))
  {
    var e := Entry(s.requests, node);
    var s' := Enqueue(s, node);
    assert s'.live == [] + [Created(e)] && s'.task == Some(e) && s'.current == Some(node);
    SingleLive(s'.live);
    hide Others, Same;
    assert Cancellable(s', node);
  }

  /** The cancellation of a task before it begins is possible: two good steps lead there. */
  lemma CancelBeforeBeginSticks(node: string)
    ensures GoodRun(Initial, [DoAdd(node), DoEnqueue(node)])
    ensures Stuck(Next(Run(Initial, [DoAdd(node), DoEnqueue(node)]), DoCancel(node)))
  {
    hide Run, GoodRun, Cancel, Enqueue;
    RunTwo(Initial, DoAdd(node), DoEnqueue(node));
    StartSticks(Next(Initial, DoAdd(node)), node);
  }

  // ---------------------------------------------------------------------------------------------
  // Progress: a busy tree is never blocked, and becomes free when its processors end.

  function Move(s: State): Step
    requires s.live != []
  {
    match s.live[0]
    case Created(_) => DoBegin(0)
    case Running(_) => DoEnd(0, false)
    case Advancing(_) => DoAdvance(0)
  }

  function Work(s: State): nat {
    3 * |s.deque| + if s.live == [] then 0 else match s.live[0] case Created(_) => 3 case Running(_) => 2 case Advancing(_) => 1
  }

  lemma AdvanceWorks(s: State)
    requires Inv(s) && s.live != [] && s.live[0].Advancing?
    ensures Work(Advance(s, 0)) < Work(s)
  {
    hide Accounted, Line;
    AdvanceLine(s);
    if s.deque != [] { assert s.deque[0] in s.deque; }
  }

  lemma BusyIsLive(s: State)
    requires Inv(s) && s.processing
    ensures |s.live| == 1
  {
    hide Accounted, Line;
  }

  lemma MoveWorks(s: State)
    requires Inv(s) && s.processing
    ensures Inv(Next(s, Move(s))) && Work(Next(s, Move(s))) < Work(s)
  {
    BusyIsLive(s);
    StepKeepsInv(s, Move(s));
    hide Inv, Advance;
    if s.live[0].Advancing? { AdvanceWorks(s); }
  }

  /** The steps of the tasks alone, each processor ending, until the tree is free. */
  ghost function Drain(s: State): (steps: seq<Step>)
    requires Inv(s)
    ensures |steps| <= Work(s)
    decreases Work(s)
  {
    if s.processing then
      MoveWorks(s);
      [Move(s)] + Drain(Next(s, Move(s)))
    else []
  }

  lemma {:induction false} RunCons(s: State, step: Step, steps: seq<Step>)
    ensures Run(s, [step] + steps) == Run(Next(s, step), steps)
    decreases |steps|
  {
    hide Next;
    var all := [step] + steps;
    if steps == [] {
      assert all == [step];
      RunOne(s, step);
    } else {
      RunCons(s, step, steps[..|steps| - 1]);
      ConcatLast([step], steps);
    }
  }

  /** From any reachable state, at most three steps for each waiting entry and the one at hand free the tree. */
  lemma {:induction false} TreeDrains(s: State)
    requires Inv(s)
    ensures !Run(s, Drain(s)).processing && |Drain(s)| <= 3 * |s.deque| + 3
    ensures Inv(Run(s, Drain(s)))
    decreases Work(s)
  {
    if s.processing {
      MoveWorks(s);
      var s' := Next(s, Move(s));
      TreeDrains(s');
      RunCons(s, Move(s), Drain(s'));
    }
  }
}
