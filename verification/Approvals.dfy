/** The approval queue and the session-trust record, as values and as the mutable objects
    the daemon shares between tasks. */
module Approvals {
  import opened Prelude
  import opened Policies
  import opened Tools

  type ApprovalId = int

  datatype Request = Request(account: AccountId, category: Category, summary: ToolName, details: Args)

  datatype Decision = Approve | Reject

  datatype Outcome = Approved | Rejected | TimedOut

  datatype ApprovalEvent =
    | Requested(id: ApprovalId, req: Request)
    | Resolved(id: ApprovalId, decision: Decision)

  /** The map under the queue's mutex and everything broadcast so far. */
  datatype Queue = Queue(pending: map<ApprovalId, Request>, events: seq<ApprovalEvent>)

  function OutcomeOf(d: Decision): Outcome {
    match d case Approve => Approved case Reject => Rejected
  }

  function AddPending(q: Queue, id: ApprovalId, req: Request): Queue {
    q.(pending := q.pending[id := req])
  }

  function DropPending(q: Queue, id: ApprovalId): Queue {
    q.(pending := q.pending - {id})
  }

  function Publish(q: Queue, e: ApprovalEvent): Queue {
    q.(events := q.events + [e])
  }

  lemma PendingCount(q: Queue, id: ApprovalId, req: Request)
    ensures |AddPending(q, id, req).pending| == |q.pending| + (if id in q.pending then 0 else 1)
    ensures |DropPending(q, id).pending| == |q.pending| - (if id in q.pending then 1 else 0)
  {
    assert AddPending(q, id, req).pending.Keys == q.pending.Keys + {id};
    assert DropPending(q, id).pending.Keys == q.pending.Keys - {id};
  }

  type TrustMap = map<(AccountId, Category), bool>

  function Trusted(trust: TrustMap, account: AccountId, category: Category): bool {
    (account, category) in trust && trust[(account, category)]
  }

  function Trusting(trust: TrustMap, account: AccountId, category: Category): TrustMap {
    trust[(account, category) := true]
  }

  /** A oneshot channel: the value sent, if any, and whether its two ends still exist. */
  class OneShot {
    var value: Option<Outcome>
    var sender: bool
    var receiver: bool

    constructor ()
      ensures value == None && sender && receiver
    {
      value, sender, receiver := None, true, true;
    }
  }

  /** `ApprovalQueue`: a pending request is kept with the sending half of its channel. */
  class ApprovalQueue {
    var pending: map<ApprovalId, Request>
    var senders: map<ApprovalId, OneShot>
    var events: seq<ApprovalEvent>

    /** Every pending request has the sender of a channel of its own. */
    ghost predicate Valid()
      reads this, set id | id in senders :: senders[id]
    {
      && pending.Keys == senders.Keys
      && (forall id | id in senders :: senders[id].sender)
      && (forall i, j | i in senders && j in senders && i != j :: senders[i] != senders[j])
    }

    ghost function Contents(): Queue
      reads this
    {
      Queue(pending, events)
    }

    constructor ()
      ensures Valid() && Contents() == Queue(map[], [])
    {
      pending, senders, events := map[], map[], [];
    }

    method Enqueue(id: ApprovalId, req: Request) returns (rx: OneShot)
      requires Valid() && id !in pending
      modifies this
      ensures Valid() && fresh(rx) && rx.value == None && rx.sender && rx.receiver
      ensures Contents() == Publish(AddPending(old(Contents()), id, req), Requested(id, req))
      ensures senders == old(senders)[id := rx]
    {
      rx := new OneShot();
      pending, senders := pending[id := req], senders[id := rx];
      events := events + [Requested(id, req)];
    }

    /** False stands for the NotFound error. */
    method Decide(id: ApprovalId, decision: Decision) returns (found: bool)
      requires Valid()
      modifies this, if id in senders then {senders[id]} else {}
      ensures Valid() && found == (id in old(pending))
      ensures !found ==> Contents() == old(Contents()) && senders == old(senders)
      ensures found ==> Contents() == Publish(DropPending(old(Contents()), id), Resolved(id, decision))
      ensures found ==> senders == old(senders) - {id}
      ensures found ==> var tx := old(senders)[id];
                        !tx.sender && tx.receiver == old(tx.receiver) &&
                        tx.value == if !old(tx.receiver) then old(tx.value)
                                    else if decision == Approve then Some(Approved) else Some(Rejected)
    {
      found := id in pending;
      if !found {
        return;
      }
      var tx := senders[id];
      pending, senders := pending - {id}, senders - {id};
      if tx.receiver {
        tx.value := Some(OutcomeOf(decision));
      }
      tx.sender := false;
      events := events + [Resolved(id, decision)];
    }

    /** The end of `await_outcome`: a value in the channel wins over the timer; a channel without a
        value and without a sender is the error "approval channel dropped", here None; else the timer
        drops the receiver and takes the entry off the queue without publishing anything. */
    method Settle(id: ApprovalId, rx: OneShot) returns (outcome: Option<Outcome>)
      requires Valid() && rx.receiver
      modifies this, rx, if id in senders then {senders[id]} else {}
      ensures Valid() && !rx.receiver && rx.value == old(rx.value)
      ensures old(rx.value).Some? ==> outcome == old(rx.value) && Contents() == old(Contents())
      ensures old(rx.value).None? && !old(rx.sender) ==> outcome == None && Contents() == old(Contents())
      ensures old(rx.value).None? && old(rx.sender) ==>
                outcome == Some(TimedOut) && Contents() == DropPending(old(Contents()), id)
      ensures id in old(senders) && old(senders)[id] == rx ==> outcome.Some?
    {
      rx.receiver := false;
      if rx.value.Some? {
        return rx.value;
      }
      if !rx.sender {
        return None;
      }
      if id in pending {
        var tx := senders[id];
        pending, senders := pending - {id}, senders - {id};
        tx.sender := false;
      }
      return Some(TimedOut);
    }

    /** Exactly the pending requests, each once, in some order. */
    method List() returns (items: seq<(ApprovalId, Request)>)
      ensures forall i | 0 <= i < |items| :: items[i].0 in pending && pending[items[i].0] == items[i].1
      ensures forall i, j | 0 <= i < j < |items| :: items[i].0 != items[j].0
      ensures forall id | id in pending :: (id, pending[id]) in items
    {
      items := [];
      var todo := pending.Keys;
      while todo != {}
        invariant todo <= pending.Keys
        invariant forall i | 0 <= i < |items| ::
            items[i].0 in pending && items[i].0 !in todo && pending[items[i].0] == items[i].1
        invariant forall i, j | 0 <= i < j < |items| :: items[i].0 != items[j].0
        invariant forall id | id in pending && id !in todo :: (id, pending[id]) in items
      {
        var id := Pick(todo);
        todo := todo - {id};
        items := items + [(id, pending[id])];
      }
    }
  }

  class SessionTrust {
    var inner: TrustMap

    constructor ()
      ensures inner == map[]
    {
      inner := map[];
    }

    function IsTrusted(account: AccountId, category: Category): bool
      reads this
    {
      Trusted(inner, account, category)
    }

    method Grant(account: AccountId, category: Category)
      modifies this
      ensures inner == Trusting(old(inner), account, category)
      ensures forall a, k :: IsTrusted(a, k) <==> old(IsTrusted(a, k)) || (a == account && k == category)
    {
      inner := inner[(account, category) := true];
    }
  }
}
