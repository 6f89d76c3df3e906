/** The table-driven state machine (fsm/fsm.go) and its cached observer
    (fsm/observer.go). Actions are an oracle: the events they return are given as
    a sequence, and an exhausted sequence is an action that never returned. */
module Fsm {
  import opened Options

  /** hasAction and transitions follow the source's nilable fields. */
  datatype State<S, E> = State(hasAction: bool, transitions: Option<map<E, S>>)

  type States<S, E> = map<S, State<S, E>>

  datatype Notification<S, E> = Notification(previous: S, next: S, event: E)

  /** What an action returns: an event to process next, or a no-op. */
  datatype Returned<E> = NoOp | Emit(event: E)

  datatype Outcome = Finished | Rejected | Blocked

  /** The table leads from the current state, on the event, to a state of the table
      that has an action. */
  predicate Leads<S(==), E>(states: States<S, E>, current: S, event: E, next: S) {
    && current in states && states[current].transitions.Some?
    && (event, next) in states[current].transitions.value.Items
    && next in states && states[next].hasAction
  }

  /** getNextState: the state that the event leads to, or none if it is rejected. */
  function NextState<S, E>(states: States<S, E>, current: S, event: E): (next: Option<S>)
    ensures next.Some? ==> Leads(states, current, event, next.value)
    ensures next.None? ==> forall s <- states :: !Leads(states, current, event, s)
  {
    if current !in states then None
    else match states[current].transitions
      case None => None
      case Some(transitions) =>
        if event !in transitions then None
        else
          var next := transitions[event];
          if next !in states || !states[next].hasAction then None else Some(next)
  }

  datatype Machine<S, E> = Machine(previous: S, current: S, notes: seq<Notification<S, E>>)

  /** SendEvent: processes the event, then whatever the actions return. */
  function SendEvent<S, E>(
      states: States<S, E>, m: Machine<S, E>, event: E, actions: seq<Returned<E>>): (Machine<S, E>, Outcome)
    decreases |actions|
  {
    match NextState(states, m.current, event)
    case None => (m, Rejected)
    case Some(next) =>
      var m1 := Machine(m.current, next, m.notes + [Notification(m.current, next, event)]);
      if actions == [] then (m1, Blocked)
      else if actions[0].NoOp? then (m1, Finished)
      else SendEvent(states, m1, actions[0].event, actions[1..])
  }

  /** The notifications form a path of the table that leads from one state to another. */
  ghost predicate Path<S, E>(states: States<S, E>, from: S, notes: seq<Notification<S, E>>, to: S) {
    && (if notes == [] then from == to else notes[0].previous == from && notes[|notes| - 1].next == to)
    && (forall i :: 0 <= i < |notes| ==> NextState(states, notes[i].previous, notes[i].event) == Some(notes[i].next))
    && (forall i :: 0 < i < |notes| ==> notes[i - 1].next == notes[i].previous)
  }

  lemma ExtendPath<S, E>(
      states: States<S, E>, from: S, n: Notification<S, E>, notes: seq<Notification<S, E>>, to: S)
    requires n.previous == from && NextState(states, from, n.event) == Some(n.next)
    requires Path(states, n.next, notes, to)
    ensures Path(states, from, [n] + notes, to)
  {
  }

  /** The events of the notifications are the sent event and then, in order, the
      events that actions returned. */
  ghost predicate Answers<S, E>(notes: seq<Notification<S, E>>, event: E, actions: seq<Returned<E>>) {
    && |notes| <= |actions| + 1
    && (forall i :: 0 <= i < |notes| ==>
          (if i == 0 then notes[i].event == event else actions[i - 1] == Emit(notes[i].event)))
  }

  /** For every table, oracle and event: the new notifications are a path of the
      table from the old to the new current state, labelled with the events that
      were sent and returned; previous is the state before the last step; a
      rejected event leaves the machine as the accepted ones left it, so an event
      rejected at once changes nothing; and the engine stops early only because
      the next event has no transition. */
  lemma {:induction false} SendEventPath<S, E>(
      states: States<S, E>, m: Machine<S, E>, event: E, actions: seq<Returned<E>>)
    ensures var (m', outcome) := SendEvent(states, m, event, actions);
            && |m.notes| <= |m'.notes| && m'.notes[..|m.notes|] == m.notes
            && var added := m'.notes[|m.notes|..];
               && Path(states, m.current, added, m'.current)
               && Answers(added, event, actions)
               && m'.previous == (if added == [] then m.previous else added[|added| - 1].previous)
               && match outcome
                  case Rejected =>
                    && |added| <= |actions|
                    && (added != [] ==> actions[|added| - 1].Emit?)
                    && NextState(states, m'.current, if added == [] then event else actions[|added| - 1].event).None?
                  case Finished => 0 < |added| <= |actions| && actions[|added| - 1].NoOp?
                  case Blocked => |added| == |actions| + 1
    decreases |actions|
  {
    var next := NextState(states, m.current, event);
    if next.Some? {
      var n := Notification(m.current, next.value, event);
      var m1 := Machine(m.current, next.value, m.notes + [n]);
      var (m', outcome) := SendEvent(states, m, event, actions);
      if actions == [] || actions[0].NoOp? {
        assert m'.notes[|m.notes|..] == [n];
      } else {
        SendEventPath(states, m1, actions[0].event, actions[1..]);
        var rest := m'.notes[|m1.notes|..];
        assert m'.notes[..|m.notes|] == m'.notes[..|m1.notes|][..|m.notes|] == m.notes;
        assert m'.notes[|m.notes|] == m'.notes[..|m1.notes|][|m.notes|] == n;
        assert m'.notes[|m.notes|..] == [n] + rest;
        ExtendPath(states, m.current, n, rest, m'.current);
      }
    }
  }

  lemma JoinPaths<S, E>(
      states: States<S, E>, from: S, notes: seq<Notification<S, E>>, via: S, more: seq<Notification<S, E>>, to: S)
    requires Path(states, from, notes, via) && Path(states, via, more, to)
    ensures Path(states, from, notes + more, to)
  {
  }

  /** A sequence of SendEvent calls. */
  datatype Call<E> = Call(event: E, actions: seq<Returned<E>>)

  function SendAll<S, E>(states: States<S, E>, m: Machine<S, E>, calls: seq<Call<E>>): Machine<S, E>
    decreases |calls|
  {
    if calls == [] then m
    else SendAll(states, SendEvent(states, m, calls[0].event, calls[0].actions).0, calls[1..])
  }

  /** Over every sequence of calls, rejected ones included, all notifications
      together are one path of the table. */
  lemma {:induction false} RunPath<S, E>(states: States<S, E>, from: S, m: Machine<S, E>, calls: seq<Call<E>>)
    requires Path(states, from, m.notes, m.current)
    ensures var m' := SendAll(states, m, calls); Path(states, from, m'.notes, m'.current)
    decreases |calls|
  {
    if calls != [] {
      SendEventPath(states, m, calls[0].event, calls[0].actions);
      var m1 := SendEvent(states, m, calls[0].event, calls[0].actions).0;
      var added := m1.notes[|m.notes|..];
      assert m1.notes == m.notes + added;
      JoinPaths(states, from, m.notes, m.current, added, m1.current);
      RunPath(states, from, m1, calls[1..]);
    }
  }

  // ----- The cached observer -----

  /** The last n elements. */
  function LastN<T>(s: seq<T>, n: nat): seq<T> {
    if |s| <= n then s else s[|s| - n..]
  }

  lemma LastNStep<T>(s: seq<T>, x: T, n: nat)
    ensures LastN(LastN(s, n) + [x], n) == LastN(s + [x], n)
  {
  }

  class FixedSizeSlice<T> {
    const maxLen: nat
    var data: seq<T>

    ghost predicate Valid()
      reads this
    {
      0 < maxLen && |data| <= maxLen
    }

    constructor (maxLen: nat)
      requires 0 < maxLen
      ensures Valid() && this.maxLen == maxLen && data == []
    {
      this.maxLen := maxLen;
      data := [];
    }

    method Add(element: T)
      requires Valid()
      modifies this
      ensures Valid() && data == LastN(old(data) + [element], maxLen)
    {
      if |data| == maxLen {
        data := data[1..];
      }
      data := data + [element];
    }
  }

  class StateMachine<S(==), E(==)> {
    const states: States<S, E>
    const observer: FixedSizeSlice<Notification<S, E>>
    var previous: S
    var current: S
    /** Every notification ever sent. */
    ghost var notes: seq<Notification<S, E>>

    ghost predicate Valid()
      reads this, observer
    {
      observer.Valid() && observer.data == LastN(notes, observer.maxLen)
    }

    ghost function View(): Machine<S, E>
      reads this
    {
      Machine(previous, current, notes)
    }

    constructor (states: States<S, E>, current: S, empty: S, observerSize: nat)
      requires 0 < observerSize
      ensures Valid() && this.states == states && fresh(observer) && observer.maxLen == observerSize
      ensures View() == Machine(empty, current, [])
    {
      this.states := states;
      this.observer := new FixedSizeSlice(observerSize);
      this.previous, this.current, this.notes := empty, current, [];
    }

    /** getNextState: moves to the next state unless the event is rejected. */
    method Step(event: E) returns (ok: bool)
      modifies this`previous, this`current
      ensures ok <==> NextState(states, old(current), event).Some?
      ensures ok ==> previous == old(current) && current == NextState(states, old(current), event).value
      ensures !ok ==> previous == old(previous) && current == old(current)
    {
      if current !in states {
        return false;
      }
      var transitions := states[current].transitions;
      if transitions.None? || event !in transitions.value {
        return false;
      }
      var next := transitions.value[event];
      if next !in states || !states[next].hasAction {
        return false;
      }
      previous := current;
      current := next;
      return true;
    }

    /** The observer holds exactly the last notifications, over all calls. */
    method Send(event: E, actions: seq<Returned<E>>) returns (outcome: Outcome)
      requires Valid()
      modifies this, observer
      ensures Valid()
      ensures (View(), outcome) == SendEvent(states, old(View()), event, actions)
    {
      var e, rest := event, actions;
      while true
        invariant Valid()
        invariant SendEvent(states, View(), e, rest) == SendEvent(states, old(View()), event, actions)
        decreases |rest|
      {
        var ok := Step(e);
        if !ok {
          return Rejected;
        }
        var n := Notification(previous, current, e);
        LastNStep(notes, n, observer.maxLen);
        observer.Add(n);
        notes := notes + [n];
        if rest == [] {
          return Blocked;
        }
        if rest[0].NoOp? {
          return Finished;
        }
        e, rest := rest[0].event, rest[1..];
      }
    }
  }
}
