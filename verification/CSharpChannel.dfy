/** The Windows tray's hand-rolled channel: any number of writers, one uncancelled reader, and a lock
    that belongs to a thread. The reader hands an item on without leaving the lock, so the lock stays
    with the thread that took the item until the reader goes on, on whatever thread that is. */
module CSharpChannel {
  import opened Prelude

  type Thread = int

  /** Where the reader is: at the top of its loop, waiting inside the lock while its consumer has an
      item, suspended on the waiter, with the waiter's result in hand but not yet running again, out
      of its loop, or dead of leaving a lock that is another thread's. */
  datatype Reader = Looping | Handing | Suspended | Woken(more: bool) | Finished | Crashed

  /** `accepted` is every item TryWrite took, `yielded` every item the reader handed on. */
  datatype Channel<T> = Channel(
    queue: seq<T>,
    waiter: bool,
    closed: bool,
    owner: Option<Thread>,
    reader: Reader,
    accepted: seq<T>,
    yielded: seq<T>)

  function Fresh<T>(): Channel<T> {
    Channel([], false, false, None, Looping, [], [])
  }

  /** Whether the thread would get the lock, rather than block. */
  predicate Free<T>(c: Channel<T>, t: Thread) {
    c.owner == None || c.owner == Some(t)
  }

  /** A waiter, if there is one, is told and forgotten. */
  function Signal<T>(c: Channel<T>, more: bool): Channel<T> {
    if c.waiter then c.(waiter := false, reader := Woken(more)) else c
  }

  function Write<T>(c: Channel<T>, item: T): Channel<T> {
    if c.closed then c else Signal(c.(queue := c.queue + [item], accepted := c.accepted + [item]), true)
  }

  function Close<T>(c: Channel<T>): Channel<T> {
    Signal(c.(closed := true), false)
  }

  /** The part of the reader's loop that runs under the lock; it leaves the lock, except with an item. */
  function Turn<T>(c: Channel<T>, t: Thread): Channel<T> {
    if c.queue != [] then
      c.(queue := c.queue[1..], yielded := c.yielded + [c.queue[0]], owner := Some(t), reader := Handing)
    else if c.closed then c.(reader := Finished)
    else c.(waiter := true, reader := Suspended)
  }

  /** The consumer asks for the next item: the reader leaves the lock, if it is still its thread's. */
  function Resume<T>(c: Channel<T>, t: Thread): Channel<T> {
    if c.owner == Some(t) then c.(owner := None, reader := Looping) else c.(reader := Crashed)
  }

  /** The part after the await. */
  function Wake<T>(c: Channel<T>): Channel<T>
    requires c.reader.Woken?
  {
    c.(reader := if c.reader.more then Looping else Finished)
  }

  datatype Label<T> =
    | TryWrite(thread: Thread, item: T)
    | Complete(thread: Thread)
    | ReaderTurn(thread: Thread)
    | ReaderResume(thread: Thread)
    | ReaderWake

  predicate Enabled<T>(c: Channel<T>, l: Label<T>) {
    match l
    case TryWrite(t, _) => Free(c, t)
    case Complete(t) => Free(c, t)
    case ReaderTurn(t) => c.reader == Looping && Free(c, t)
    case ReaderResume(_) => c.reader == Handing
    case ReaderWake => c.reader.Woken?
  }

  function Step<T>(c: Channel<T>, l: Label<T>): Channel<T>
    requires Enabled(c, l)
  {
    match l
    case TryWrite(_, item) => Write(c, item)
    case Complete(_) => Close(c)
    case ReaderTurn(t) => Turn(c, t)
    case ReaderResume(t) => Resume(c, t)
    case ReaderWake => Wake(c)
  }

  function Exec<T>(labels: seq<Label<T>>): Option<Channel<T>> {
    if labels == [] then Some(Fresh())
    else
      match Exec(labels[..|labels| - 1])
      case None => None
      case Some(c) =>
        if Enabled(c, labels[|labels| - 1]) then Some(Step(c, labels[|labels| - 1])) else None
  }

  class ChannelOf<T> {
    var q: seq<T>
    var waiter: bool
    var closed: bool
    var owner: Option<Thread>
    var reader: Reader
    ghost var accepted: seq<T>
    ghost var yielded: seq<T>

    ghost function Value(): Channel<T>
      reads this
    {
      Channel(q, waiter, closed, owner, reader, accepted, yielded)
    }

    constructor ()
      ensures Value() == Fresh()
    {
      q, waiter, closed, owner, reader, accepted, yielded := [], false, false, None, Looping, [], [];
    }

    /** A call that returns: one that does not get the lock blocks instead. */
    method TryWrite(t: Thread, item: T) returns (taken: bool)
      requires Free(Value(), t)
      modifies this
      ensures Value() == Write(old(Value()), item)
      ensures taken <==> !old(closed)
    {
      if closed {
        return false;
      }
      q, accepted := q + [item], accepted + [item];
      if waiter {
        reader := Woken(true);
      }
      waiter := false;
      return true;
    }

    method Complete(t: Thread)
      requires Free(Value(), t)
      modifies this
      ensures Value() == Close(old(Value()))
    {
      closed := true;
      if waiter {
        reader := Woken(false);
      }
      waiter := false;
    }

    method ReadTurn(t: Thread) returns (item: Option<T>)
      requires Free(Value(), t)
      modifies this
      ensures Value() == Turn(old(Value()), t)
      ensures item == if old(q) == [] then None else Some(old(q)[0])
    {
      if |q| > 0 {
        item := Some(q[0]);
        q, yielded := q[1..], yielded + [q[0]];
        owner, reader := Some(t), Handing;
        return;
      }
      item := None;
      if closed {
        reader := Finished;
        return;
      }
      waiter := true;
      reader := Suspended;
    }

    /** False stands for the exception. */
    method MoveNext(t: Thread) returns (ok: bool)
      requires reader == Handing
      modifies this
      ensures Value() == Resume(old(Value()), t)
      ensures ok <==> old(owner) == Some(t)
    {
      if owner != Some(t) {
        reader := Crashed;
        return false;
      }
      owner, reader := None, Looping;
      return true;
    }

    method AfterAwait()
      requires reader.Woken?
      modifies this
      ensures Value() == Wake(old(Value()))
    {
      if !reader.more {
        reader := Finished;
        return;
      }
      reader := Looping;
    }
  }

  // ----- under every schedule: nothing out of order, nothing twice -----

  /** What the writers offered before the channel was completed. */
  function Offered<T>(labels: seq<Label<T>>): seq<T> {
    if labels == [] then []
    else
      var init := labels[..|labels| - 1];
      match labels[|labels| - 1]
      case TryWrite(_, item) => if Completed(init) then Offered(init) else Offered(init) + [item]
      case _ => Offered(init)
  }

  predicate Completed<T>(labels: seq<Label<T>>) {
    exists i | 0 <= i < |labels| :: labels[i].Complete?
  }

  ghost predicate Inv<T>(c: Channel<T>) {
    && c.yielded + c.queue == c.accepted
    && (c.owner.Some? <==> c.reader == Handing || c.reader == Crashed)
    && (c.waiter <==> c.reader == Suspended)
    && (c.waiter ==> c.queue == [] && !c.closed)
    && (c.reader == Finished || c.reader == Woken(false) ==> c.queue == [] && c.closed)
  }

  lemma StepKeepsInv<T>(c: Channel<T>, l: Label<T>)
    requires Inv(c) && Enabled(c, l)
    ensures Inv(Step(c, l))
  {
    match l
    case TryWrite(_, item) => assert c.yielded + (c.queue + [item]) == c.accepted + [item];
    case ReaderTurn(_) =>
      if c.queue != [] {
        assert c.queue == [c.queue[0]] + c.queue[1..];
        assert c.yielded + [c.queue[0]] + c.queue[1..] == c.accepted;
      }
    case _ =>
  }

  /** Whatever the schedule and the threads: what is taken is what was offered before completion; what
      comes out is a beginning of it, in order; and if the reader leaves its loop it has had all of it. */
  lemma {:induction false} NothingOutOfOrder<T>(labels: seq<Label<T>>, c: Channel<T>)
    requires Exec(labels) == Some(c)
    ensures Inv(c)
    ensures c.accepted == Offered(labels) && (c.closed <==> Completed(labels))
    ensures c.yielded <= Offered(labels)
    ensures c.reader == Finished ==> c.yielded == Offered(labels)
  {
    if labels != [] {
      var init, l := labels[..|labels| - 1], labels[|labels| - 1];
      assert labels == init + [l];
      var c0 := Exec(init).value;
      NothingOutOfOrder(init, c0);
      StepKeepsInv(c0, l);
      CompletedAppend(init, l);
    }
  }

  lemma CompletedAppend<T>(labels: seq<Label<T>>, l: Label<T>)
    ensures Completed(labels + [l]) <==> Completed(labels) || l.Complete?
  {
    var all := labels + [l];
    if Completed(labels) {
      var i :| 0 <= i < |labels| && labels[i].Complete?;
      assert all[i].Complete?;
    }
    if l.Complete? {
      assert all[|labels|].Complete?;
    }
  }

  // ----- and nothing lost, exactly if the reader keeps to its thread -----

  /** The thread of the reader's latest turn. */
  function LastTurn<T>(labels: seq<Label<T>>): Option<Thread> {
    if labels == [] then None
    else
      match labels[|labels| - 1]
      case ReaderTurn(t) => Some(t)
      case _ => LastTurn(labels[..|labels| - 1])
  }

  /** Each time the reader goes on after an item, it does so on the thread that took the item. */
  predicate KeepsToItsThread<T>(labels: seq<Label<T>>) {
    if labels == [] then true
    else
      var init := labels[..|labels| - 1];
      KeepsToItsThread(init) &&
      match labels[|labels| - 1]
      case ReaderResume(t) => LastTurn(init) == Some(t)
      case _ => true
  }

  lemma {:induction false} CrashesIffItChangesThread<T>(labels: seq<Label<T>>, c: Channel<T>)
    requires Exec(labels) == Some(c)
    ensures c.reader == Crashed <==> !KeepsToItsThread(labels)
    ensures c.reader == Handing || c.reader == Crashed ==> c.owner.Some? && c.owner == LastTurn(labels)
  {
    if labels != [] {
      var init := labels[..|labels| - 1];
      var c0 := Exec(init).value;
      CrashesIffItChangesThread(init, c0);
      NothingOutOfOrder(init, c0);
    }
  }

  predicate ReadersOwn<T>(labels: seq<Label<T>>) {
    forall i | 0 <= i < |labels| :: labels[i].ReaderTurn? || labels[i].ReaderResume? || labels[i].ReaderWake?
  }

  /** No wake-up is lost: a reader that has kept to its thread, and goes on doing so, brings out by its
      own steps everything taken so far, and leaves its loop if the channel is complete. */
  lemma {:induction false} ReaderCatchesUp<T>(labels: seq<Label<T>>, c: Channel<T>, t: Thread)
    returns (own: seq<Label<T>>, c': Channel<T>)
    requires Exec(labels) == Some(c) && KeepsToItsThread(labels)
    ensures ReadersOwn(own) && Exec(labels + own) == Some(c')
    ensures c'.yielded == c.accepted == c'.accepted && c'.closed == c.closed
    ensures c'.reader == if c.closed then Finished else Suspended
    decreases |c.queue|, match c.reader case Handing => 3 case Woken(_) => 2 case Looping => 1 case _ => 0
  {
    NothingOutOfOrder(labels, c);
    CrashesIffItChangesThread(labels, c);
    if c.reader == Suspended || c.reader == Finished {
      own, c' := [], c;
      assert labels + own == labels;
      assert c.yielded + [] == c.yielded;
    } else {
      var l := match c.reader
               case Looping => ReaderTurn(t)
               case Handing => ReaderResume(c.owner.value)
               case _ => ReaderWake;
      assert (labels + [l])[..|labels|] == labels;
      own, c' := ReaderCatchesUp(labels + [l], Step(c, l), t);
      assert labels + ([l] + own) == labels + [l] + own;
      own := [l] + own;
    }
  }

  /** Once the reader is dead it stays so: it yields nothing more, the lock stays with the thread that
      took the last item, and no other thread gets to write or to complete the channel. */
  lemma {:induction false} ACrashIsFinal<T>(labels: seq<Label<T>>, c: Channel<T>, more: seq<Label<T>>, c': Channel<T>)
    requires Exec(labels) == Some(c) && c.reader == Crashed && Exec(labels + more) == Some(c')
    ensures c'.reader == Crashed && c'.yielded == c.yielded && c'.owner == c.owner == LastTurn(labels)
    ensures forall i | 0 <= i < |more| :: (more[i].TryWrite? || more[i].Complete?) && Some(more[i].thread) == c.owner
    decreases |more|
  {
    CrashesIffItChangesThread(labels, c);
    if more == [] {
      assert labels + more == labels;
    } else {
      var init, l := more[..|more| - 1], more[|more| - 1];
      assert (labels + more)[..|labels + more| - 1] == labels + init;
      var c0 := Exec(labels + init).value;
      ACrashIsFinal(labels, c, init, c0);
      NothingOutOfOrder(labels + init, c0);
    }
  }

  /** The reader's own steps can bring everything out, and end its loop if the channel is complete. */
  ghost predicate ComesOut<T>(labels: seq<Label<T>>, own: seq<Label<T>>) {
    && ReadersOwn(own) && Exec(labels + own).Some?
    && var c := Exec(labels + own).value;
       c.yielded == Offered(labels) && c.reader == if c.closed then Finished else Suspended
  }

  lemma EverythingComesOutIffItKeepsToItsThread<T>(labels: seq<Label<T>>, c: Channel<T>)
    requires Exec(labels) == Some(c)
    ensures (exists own :: ComesOut(labels, own)) <==> KeepsToItsThread(labels)
  {
    NothingOutOfOrder(labels, c);
    CrashesIffItChangesThread(labels, c);
    if KeepsToItsThread(labels) {
      var own, c' := ReaderCatchesUp(labels, c, 0);
      assert ComesOut(labels, own);
    } else {
      forall own | ComesOut(labels, own)
        ensures false
      {
        ACrashIsFinal(labels, c, own, Exec(labels + own).value);
      }
    }
  }

  lemma Then<T>(labels: seq<Label<T>>, c: Channel<T>, l: Label<T>) returns (labels': seq<Label<T>>, c': Channel<T>)
    requires Exec(labels) == Some(c) && Enabled(c, l)
    ensures labels' == labels + [l] && Exec(labels') == Some(c') && c' == Step(c, l)
  {
    assert (labels + [l])[..|labels|] == labels;
    labels', c' := labels + [l], Step(c, l);
  }

  /** What the tray's consumer does, which awaits a call for each item: it comes back on another
      thread, the second item is never handed on, and the other thread can write no more. */
  lemma ItemsCanBeStranded<T>(x: T, y: T, t: Thread, u: Thread) returns (labels: seq<Label<T>>, c: Channel<T>)
    requires t != u
    ensures Exec(labels) == Some(c) && Offered(labels) == [x, y]
    ensures c.reader == Crashed && c.yielded == [x] && c.queue == [y]
    ensures forall item :: !Enabled(c, TryWrite(u, item))
  {
    labels, c := [], Fresh();
    labels, c := Then(labels, c, TryWrite(u, x));
    labels, c := Then(labels, c, TryWrite(u, y));
    labels, c := Then(labels, c, ReaderTurn(t));
    labels, c := Then(labels, c, ReaderResume(u));
    NothingOutOfOrder(labels, c);
    assert c.accepted == [x, y];
  }
}
