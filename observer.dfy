/** The two concrete observers of the Observer pattern demonstration and the
    rule each one uses to decide whether it reacts to the subject's state. */
module Observers {

  /** Which concrete observer class an observer object belongs to. */
  datatype Kind = A | B

  /** ConcreteObserverA reacts to states below 3: of the values the business
      logic can draw, exactly 0, 1 and 2. */
  function ReactsA(state: int): (r: bool)
    ensures 0 <= state < 10 ==> (r <==> state in {0, 1, 2})
    ensures state < 0 ==> r
  {
    state < 3
  }

  /** ConcreteObserverB reacts to state 0 and to every state from 2 upward: of
      the values the business logic can draw, every one but 1; never below 0. */
  function ReactsB(state: int): (r: bool)
    ensures 0 <= state < 10 ==> (r <==> state != 1)
    ensures state < 0 ==> !r
  {
    state == 0 || state >= 2
  }

  /** An observer object. It holds no data of its own; its kind fixes its
      reaction rule, and its identity as an object is what Detach compares. */
  class Observer {
    const kind: Kind

    constructor (kind: Kind)
      ensures this.kind == kind
    {
      this.kind := kind;
    }

    /** Update(subject): whether this observer reacts to the given state,
        by the rule of its class. Read by state: at 0 and 2 every observer
        reacts, at 1 and below 0 only A observers, from 3 upward only B ones. */
    function Reacts(state: int): (r: bool)
      ensures state == 0 || state == 2 ==> r
      ensures state == 1 || state < 0 ==> (r <==> kind == A)
      ensures state >= 3 ==> (r <==> kind == B)
    {
      match kind
      case A => ReactsA(state)
      case B => ReactsB(state)
    }
  }

  /** The integers split into three regions: both kinds react at 0 and 2,
      only A reacts at 1 and below 0, only B reacts from 3 upward. */
  lemma ReactionRegions(state: int)
    ensures ReactsA(state) && ReactsB(state) <==> state == 0 || state == 2
    ensures ReactsA(state) && !ReactsB(state) <==> state == 1 || state < 0
    ensures !ReactsA(state) && ReactsB(state) <==> state >= 3
  {
  }
}

/** The subject: an integer state and the ordered list of attached observers,
    with the subscription operations and the notification walk. */
module Subjects {
  import opened ListOps
  import opened Observers

  /** One call of Update during a notification: the observer called and
      whether it reacted (in place of the line it would write to the console). */
  datatype Reaction = Reaction(observer: Observer, reacted: bool)

  /** The reaction of one observer to one state: it is attributed to the
      observer called, and it is positive exactly when that observer's class
      condition holds of the state. */
  function Update(o: Observer, state: int): (r: Reaction)
    ensures r.observer == o
    ensures o.kind == A ==> (r.reacted <==> state < 3)
    ensures o.kind == B ==> (r.reacted <==> state == 0 || state >= 2)
  {
    Reaction(o, o.Reacts(state))
  }

  /** The reactions a notification of the list produces, in list order. */
  function Trace(observers: seq<Observer>, state: int): (t: seq<Reaction>)
    ensures |t| == |observers|
  {
    if observers == [] then []
    else Trace(observers[..|observers| - 1], state) + [Update(observers[|observers| - 1], state)]
  }

  /** Each observer in the list is called exactly once, at its own position. */
  lemma {:induction false} TraceAt(observers: seq<Observer>, state: int, i: nat)
    requires i < |observers|
    ensures Trace(observers, state)[i] == Update(observers[i], state)
  {
    var n := |observers|;
    if i < n - 1 {
      TraceAt(observers[..n - 1], state, i);
    }
  }

  /** Notifying two lists one after the other is notifying their concatenation. */
  lemma {:induction false} TraceConcat(left: seq<Observer>, right: seq<Observer>, state: int)
    ensures Trace(left + right, state) == Trace(left, state) + Trace(right, state)
  {
    if right != [] {
      var n := |right|;
      assert (left + right)[..|left + right| - 1] == left + right[..n - 1];
      TraceConcat(left, right[..n - 1], state);
      assert (left + right)[|left + right| - 1] == right[n - 1];
    } else {
      assert left + right == left;
    }
  }

  /** After Detach(o), where o sat first at position i, the next notification
      is the previous one with exactly the i-th reaction taken out. */
  lemma TraceAfterDetach(observers: seq<Observer>, o: Observer, state: int, i: nat)
    requires i < |observers| && observers[i] == o && o !in observers[..i]
    ensures Trace(RemoveFirst(observers, o), state)
         == Trace(observers, state)[..i] + Trace(observers, state)[i + 1..]
  {
    RemoveFirstAt(observers, o, i);
    TraceConcat(observers[..i], observers[i + 1..], state);
    assert observers == observers[..i] + [o] + observers[i + 1..];
    TraceConcat(observers[..i] + [o], observers[i + 1..], state);
    TraceConcat(observers[..i], [o], state);
  }

  /** An observer attached once and then detached is never called again. */
  lemma DetachedIsNotNotified(observers: seq<Observer>, o: Observer, state: int)
    requires multiset(observers)[o] == 1
    ensures forall r :: r in Trace(RemoveFirst(observers, o), state) ==> r.observer != o
  {
    RemoveFirstMultiset(observers, o);
    var rest := RemoveFirst(observers, o);
    assert o !in rest by {
      var left: multiset<Observer> := multiset(rest);
      assert left[o] == 0;
    }
    forall r | r in Trace(rest, state)
      ensures r.observer != o
    {
      var k :| 0 <= k < |rest| && Trace(rest, state)[k] == r;
      TraceAt(rest, state, k);
    }
  }

  /** An observer attached twice is called twice per notification, once for
      each entry, the newer entry last. */
  lemma AttachTwiceNotifiesTwice(observers: seq<Observer>, o: Observer, state: int)
    requires o in observers
    ensures Trace(observers + [o], state)[|observers|] == Update(o, state)
    ensures exists k :: 0 <= k < |observers| && Trace(observers + [o], state)[k] == Update(o, state)
  {
    var k :| 0 <= k < |observers| && observers[k] == o;
    TraceAt(observers + [o], state, k);
  }

  /** Notifications of an A observer followed by a B observer: at state 2 and
      at state 0 both react, at state 5 only B does; once B is detached, a
      notification at state 0 calls A alone. */
  lemma DemoScenarios(a: Observer, b: Observer)
    requires a.kind == A && b.kind == B
    ensures Trace([a, b], 2) == [Reaction(a, true), Reaction(b, true)]
    ensures Trace([a, b], 0) == [Reaction(a, true), Reaction(b, true)]
    ensures Trace([a, b], 5) == [Reaction(a, false), Reaction(b, true)]
    ensures Trace(RemoveFirst([a, b], b), 0) == [Reaction(a, true)]
  {
    assert [a, b][..1] == [a];
    assert [a, b][1..] == [b];
  }

  class Subject {
    /** The state all observers care about. */
    var state: int
    /** The attached observers, in attachment order; duplicates allowed. */
    var observers: seq<Observer>

    /** A new subject has state 0 and no observers. */
    constructor ()
      ensures state == 0 && observers == []
    {
      state := 0;
      observers := [];
    }

    /** Appends o, even when it is already attached. */
    method Attach(o: Observer)
      modifies this
      ensures observers == old(observers) + [o]
      ensures state == old(state)
    {
      observers := observers + [o];
    }

    /** Removes the first entry that is the object o; no-op when o is absent. */
    method Detach(o: Observer)
      modifies this
      ensures observers == RemoveFirst(old(observers), o)
      ensures state == old(state)
    {
      var i := IndexOf(observers, o);
      if i >= 0 {
        RemoveFirstAt(observers, o, i);
        observers := observers[..i] + observers[i + 1..];
      } else {
        RemoveFirstAbsent(observers, o);
      }
    }

    /** Calls Update on every attached observer, in list order, and returns
      the reactions; neither the state nor the list changes. */
    method Notify() returns (trace: seq<Reaction>)
      ensures trace == Trace(observers, state)
      ensures |trace| == |observers|
      ensures forall i :: 0 <= i < |observers| ==> trace[i] == Update(observers[i], state)
    {
      trace := [];
      for i := 0 to |observers|
        invariant trace == Trace(observers[..i], state)
      {
        assert observers[..i + 1][..i] == observers[..i];
        trace := trace + [Update(observers[i], state)];
      }
      assert observers[..|observers|] == observers;
      forall i | 0 <= i < |observers|
        ensures trace[i] == Update(observers[i], state)
      {
        TraceAt(observers, state, i);
      }
    }

    /** Sets the state to v, the value the random source drew from [0, 10),
      then notifies once; every reaction sees the new state. */
    method SomeBusinessLogic(v: int) returns (trace: seq<Reaction>)
      requires 0 <= v < 10
      modifies this
      ensures state == v && observers == old(observers)
      ensures trace == Trace(observers, v)
    {
      state := v;
      trace := Notify();
    }
  }

  /** The client's fixed scenario: attach an A and a B observer, run the
      business logic twice with draws v1 and v2, detach B, run it once more
      with draw v3. Both observers see the first two changes; only A the last. */
  method RunClient(v1: int, v2: int, v3: int) returns (t1: seq<Reaction>, t2: seq<Reaction>, t3: seq<Reaction>)
    requires 0 <= v1 < 10 && 0 <= v2 < 10 && 0 <= v3 < 10
    ensures |t1| == 2 && |t2| == 2 && |t3| == 1
    ensures t1[0].observer.kind == A && t1[1].observer.kind == B
    ensures t2[0].observer == t1[0].observer && t2[1].observer == t1[1].observer
    ensures t3[0].observer == t1[0].observer
    ensures t1[0].reacted == ReactsA(v1) && t1[1].reacted == ReactsB(v1)
    ensures t2[0].reacted == ReactsA(v2) && t2[1].reacted == ReactsB(v2)
    ensures t3[0].reacted == ReactsA(v3)
  {
    var subject := new Subject();
    var observerA := new Observer(A);
    subject.Attach(observerA);
    var observerB := new Observer(B);
    subject.Attach(observerB);
    t1 := subject.SomeBusinessLogic(v1);
    t2 := subject.SomeBusinessLogic(v2);
    subject.Detach(observerB);
    assert subject.observers == RemoveFirst([observerA, observerB], observerB);
    RemoveFirstAt([observerA, observerB], observerB, 1);
    assert subject.observers == [observerA];
    t3 := subject.SomeBusinessLogic(v3);
  }
}
