/**
 The action client of the shared pet (pet/swift/PetSharedHost in pet/swift/PetShared.swift)
 over a network that loses, repeats and delays messages, against an owner that keeps the receipt
 contract stated in pet/scripts/check-shared.py.
 */
module SharedPet {
  import opened Common

  // ---------------------------------------------------------------- the client

  /** The bytes of one interaction; identity and client id are the same in all of them. */
  datatype Body = Body(seqNo: nat, revision: nat, food: bool)

  /** 200 with a new or a repeated receipt; 409 for good; anything else, including a 409 that
      names the storage, after which the client tries again. */
  datatype Reply = Accepted | Duplicate | Conflict | Busy

  datatype Host = Host(frame: Option<nat>, sequence: nat, pending: Option<Body>, sending: bool)

  /** `interact`: only with a fresh frame, and only one action at a time. */
  function Interacted(h: Host, food: bool, recent: bool): Host {
    if h.frame.Some? && recent && h.pending.None?
    then h.(pending := Some(Body(h.sequence + 1, h.frame.value, food))) else h
  }

  predicate MaySend(h: Host) { h.pending.Some? && !h.sending }

  /** `sendPending` after its request: success, a final refusal, or an error that is retried. */
  function Answered(h: Host, reply: Option<Reply>): Host {
    match reply
    case None => h.(sending := false)
    case Some(Busy) => h.(sending := false)
    case Some(Conflict) => h.(sending := false, pending := None)
    case Some(_) => h.(sending := false, pending := None, sequence := h.sequence + 1)
  }

  /** The client object; `sendPending` is its part before and its part after the request. */
  class PetSharedHost {
    var frame: Option<nat>
    var sequence: nat
    var pending: Option<Body>
    var sending: bool

    function View(): Host
      reads this
    {
      Host(frame, sequence, pending, sending)
    }

    constructor ()
      ensures View() == Host(None, 0, None, false)
    {
      frame, sequence, pending, sending := None, 0, None, false;
    }

    method Interact(food: bool, recent: bool)
      modifies this
      ensures View() == Interacted(old(View()), food, recent)
    {
      if frame.None? || !recent || pending.Some? {
        return;
      }
      pending := Some(Body(sequence + 1, frame.value, food));
    }

    method BeginSend() returns (request: Option<Body>)
      modifies this`sending
      ensures MaySend(old(View())) ==> request == pending && sending
      ensures !MaySend(old(View())) ==> request == None && sending == old(sending)
    {
      if pending.None? || sending {
        return None;
      }
      sending := true;
      request := pending;
    }

    method EndSend(reply: Option<Reply>)
      modifies this
      ensures View() == Answered(old(View()), reply)
    {
      if reply == Some(Conflict) {
        pending := None;
      } else if reply == Some(Accepted) || reply == Some(Duplicate) {
        sequence := sequence + 1;
        pending := None;
      }
      sending := false;
    }
  }

  // ---------------------------------------------------------------- the owner

  /** What the owner keeps durably for one client, and the current source revision. */
  datatype Owner = Owner(last: nat, receipt: Option<Body>, revision: nat, applied: seq<Body>)

  /** The receipt contract: the last action again is a duplicate; the next action for the
      current source is applied; gaps, changed duplicates and old revisions are refused. */
  function Decide(o: Owner, body: Body): (Reply, Owner) {
    if o.receipt == Some(body) then (Duplicate, o)
    else if body.seqNo == o.last + 1 && body.revision == o.revision then
      (Accepted, Owner(body.seqNo, Some(body), o.revision, o.applied + [body]))
    else (Conflict, o)
  }

  // ---------------------------------------------------------------- client, network and owner

  datatype Request = Request(attempt: nat, body: Body)

  datatype Answer = Answer(attempt: nat, reply: Reply)

  /** `sent` and `replies` hold every message ever sent, so that any of them can arrive at any
      time, again and again, or never. `acknowledged` and `dropped` record what the client has
      learned: the actions confirmed, in order, and those refused for good. */
  datatype System = System(host: Host, attempt: nat, sent: set<Request>, replies: set<Answer>, owner: Owner,
                           acknowledged: seq<Body>, dropped: set<Body>)

  datatype Action =
    | Frame(revision: nat)
    | Interact(food: bool, recent: bool)
    | Send
    | Deliver(request: Request)
    | Refuse(request: Request)
    | Receive(reply: Reply)
    | GiveUp
    | ChangeSource

  function Apply(s: System, a: Action): Option<System> {
    match a
    case Frame(revision) =>
      if revision > s.owner.revision then None else Some(s.(host := s.host.(frame := Some(revision))))
    case Interact(food, recent) =>
      Some(s.(host := Interacted(s.host, food, recent)))
    case Send =>
      if !MaySend(s.host) then None
      else Some(s.(host := s.host.(sending := true), attempt := s.attempt + 1,
                   sent := s.sent + {Request(s.attempt + 1, s.host.pending.value)}))
    case Deliver(request) =>
      if request !in s.sent then None
      else
        var (reply, owner) := Decide(s.owner, request.body);
        Some(s.(owner := owner, replies := s.replies + {Answer(request.attempt, reply)}))
    case Refuse(request) =>
      if request !in s.sent then None else Some(s.(replies := s.replies + {Answer(request.attempt, Busy)}))
    case Receive(reply) =>
      if !s.host.sending || Answer(s.attempt, reply) !in s.replies then None
      else
        var after := s.(host := Answered(s.host, Some(reply)));
        if s.host.pending.None? || reply.Busy? then Some(after)
        else if reply.Conflict? then Some(after.(dropped := s.dropped + {s.host.pending.value}))
        else Some(after.(acknowledged := s.acknowledged + [s.host.pending.value]))
    case GiveUp =>
      if s.host.sending then Some(s.(host := Answered(s.host, None))) else None
    case ChangeSource =>
      Some(s.(owner := s.owner.(revision := s.owner.revision + 1)))
  }

  const Start := System(Host(None, 0, None, false), 0, {}, {}, Owner(0, None, 0, []), [], {})

  // ---------------------------------------------------------------- what every step keeps

  /** The applied actions are numbered 1, 2, 3, ... and the receipt is the last of them. */
  predicate OwnerOK(o: Owner) {
    && |o.applied| == o.last
    && (forall i :: 0 <= i < o.last ==> o.applied[i].seqNo == i + 1)
    && o.receipt == (if o.last == 0 then None else Some(o.applied[o.last - 1]))
  }

  /** A body that the owner will never apply: it has not, and its source is gone. */
  predicate Dead(o: Owner, body: Body) {
    body.revision < o.revision && body !in o.applied
  }

  predicate HostOK(s: System) {
    && (s.host.pending.Some? ==>
          s.host.pending.value.seqNo == s.host.sequence + 1 && s.host.pending.value.revision <= s.owner.revision)
    && (s.host.frame.Some? ==> s.host.frame.value <= s.owner.revision)
    && (s.host.sending ==> s.host.pending.Some?)
  }

  /** Client and owner count alike, except while the client does not know that its pending
      action has been applied. */
  predicate InStep(s: System) {
    && s.host.sequence <= s.owner.last <= s.host.sequence + 1
    && (s.owner.last == s.host.sequence + 1 ==>
        s.owner.last <= |s.owner.applied| && s.host.pending == Some(s.owner.applied[s.owner.last - 1]))
    && s.host.sequence <= |s.owner.applied| && s.acknowledged == s.owner.applied[..s.host.sequence]
  }

  predicate RequestOK(s: System, r: Request) {
    && r.attempt <= s.attempt && r.body.revision <= s.owner.revision && 1 <= r.body.seqNo <= s.host.sequence + 1
    && (s.host.pending == Some(r.body) || Dead(s.owner, r.body)
        || (r.body in s.acknowledged && r.body.seqNo <= s.host.sequence))
    && (s.host.sending && r.attempt == s.attempt ==> s.host.pending == Some(r.body))
  }

  predicate AnswerOK(s: System, a: Answer) {
    && a.attempt <= s.attempt
    && (s.host.sending && a.attempt == s.attempt ==>
          && ((a.reply.Accepted? || a.reply.Duplicate?) ==> s.owner.last == s.host.sequence + 1)
          && (a.reply.Conflict? ==> s.host.pending.Some? && Dead(s.owner, s.host.pending.value)))
  }

  ghost predicate Inv(s: System) {
    && OwnerOK(s.owner) && HostOK(s) && InStep(s)
    && (forall r :: r in s.sent ==> RequestOK(s, r))
    && (forall a :: a in s.replies ==> AnswerOK(s, a))
    && (forall d :: d in s.dropped ==> Dead(s.owner, d))
  }

  lemma DeliverKeeps(s: System, r: Request, t: System)
    requires Inv(s) && Apply(s, Deliver(r)) == Some(t)
    ensures Inv(t)
  {
    assert RequestOK(s, r);
    var (reply, owner) := Decide(s.owner, r.body);
    if reply.Accepted? {
      // Only the pending action can be new: everything else with this number is dead.
      assert s.host.pending == Some(r.body);
      assert owner.applied[..s.host.sequence] == s.owner.applied[..s.host.sequence];
      forall d | Dead(s.owner, d) ensures Dead(owner, d) {}
    }
    if reply.Conflict? && s.host.sending && r.attempt == s.attempt {
      RefusedIsDead(s, r.body);
    }
    forall q | q in t.sent ensures RequestOK(t, q) {
      assert RequestOK(s, q);
    }
    forall a | a in t.replies ensures AnswerOK(t, a) {
      if a in s.replies { assert AnswerOK(s, a); }
    }
  }

  /** A pending action that the owner refuses has not been applied and its source is gone. */
  lemma RefusedIsDead(s: System, body: Body)
    requires Inv(s) && s.host.pending == Some(body) && Decide(s.owner, body).0.Conflict?
    ensures Dead(s.owner, body)
  {
    assert s.owner.last == s.host.sequence;
    forall i | 0 <= i < s.owner.last ensures s.owner.applied[i] != body {
      assert s.owner.applied[i].seqNo == i + 1;
    }
  }

  lemma ReceiveKeeps(s: System, reply: Reply, t: System)
    requires Inv(s) && Apply(s, Receive(reply)) == Some(t)
    ensures Inv(t)
  {
    assert AnswerOK(s, Answer(s.attempt, reply));
    if reply.Accepted? || reply.Duplicate? {
      assert s.owner.applied[..s.owner.last] == s.owner.applied[..s.host.sequence] + [s.owner.applied[s.host.sequence]];
    }
    forall q | q in t.sent ensures RequestOK(t, q) {
      assert RequestOK(s, q);
    }
    forall a | a in t.replies ensures AnswerOK(t, a) {
      assert AnswerOK(s, a);
    }
  }

  lemma SendKeeps(s: System, t: System)
    requires Inv(s) && Apply(s, Send) == Some(t)
    ensures Inv(t)
  {
    forall q | q in t.sent ensures RequestOK(t, q) {
      if q in s.sent { assert RequestOK(s, q); }
    }
    forall x | x in t.replies ensures AnswerOK(t, x) {
      assert AnswerOK(s, x);
    }
  }

  /** Steps of the client alone, or of the owner's source, that settle nothing. */
  lemma LocalKeeps(s: System, a: Action, t: System)
    requires Inv(s) && Apply(s, a) == Some(t) && (a.Frame? || a.Interact? || a.GiveUp? || a.ChangeSource?)
    ensures Inv(t)
  {
    forall q | q in t.sent ensures RequestOK(t, q) {
      assert RequestOK(s, q);
    }
    forall x | x in t.replies ensures AnswerOK(t, x) {
      assert AnswerOK(s, x);
    }
  }

  lemma RefuseKeeps(s: System, r: Request, t: System)
    requires Inv(s) && Apply(s, Refuse(r)) == Some(t)
    ensures Inv(t)
  {
    assert RequestOK(s, r);
    forall q | q in t.sent ensures RequestOK(t, q) {
      assert RequestOK(s, q);
    }
    forall x | x in t.replies ensures AnswerOK(t, x) {
      if x in s.replies { assert AnswerOK(s, x); }
    }
  }

  /** Every message and every step of client and owner keeps the invariant. */
  lemma StepKeeps(s: System, a: Action, t: System)
    requires Inv(s) && Apply(s, a) == Some(t)
    ensures Inv(t)
  {
    match a
    case Send => SendKeeps(s, t);
    case Deliver(r) => DeliverKeeps(s, r, t);
    case Refuse(r) => RefuseKeeps(s, r, t);
    case Receive(reply) => ReceiveKeeps(s, reply, t);
    case _ => LocalKeeps(s, a, t);
  }

  // ---------------------------------------------------------------- over whole runs

  ghost predicate Reaches(s: System, actions: seq<Action>, t: System)
    decreases |actions|
  {
    if actions == [] then s == t
    else Apply(s, actions[0]).Some? && Reaches(Apply(s, actions[0]).value, actions[1..], t)
  }

  lemma {:induction false} RunKeeps(s: System, actions: seq<Action>, t: System)
    requires Inv(s) && Reaches(s, actions, t)
    ensures Inv(t)
    decreases |actions|
  {
    if actions != [] {
      StepKeeps(s, actions[0], Apply(s, actions[0]).value);
      RunKeeps(Apply(s, actions[0]).value, actions[1..], t);
    }
  }

  function Times(list: seq<Body>, body: Body): nat {
    multiset(list)[body]
  }

  /** Whatever is lost, repeated or delayed: each action is applied at most once; the client's
      number is the owner's or one behind, and one behind only while that very action is still
      pending; confirmed actions are exactly the applied ones in order; and an action that was
      refused for good is never applied. */
  lemma AtMostOnce(actions: seq<Action>, t: System, body: Body)
    requires Reaches(Start, actions, t)
    ensures Times(t.owner.applied, body) <= 1
    ensures t.owner.last == t.host.sequence
            || (t.owner.last == t.host.sequence + 1 && t.host.pending == t.owner.receipt && t.host.pending.Some?)
    ensures t.acknowledged <= t.owner.applied && |t.acknowledged| == t.host.sequence
    ensures body in t.dropped ==> body !in t.owner.applied
  {
    RunKeeps(Start, actions, t);
    DistinctOnce(t.owner.applied, body);
  }

  lemma {:induction false} DistinctOnce(list: seq<Body>, body: Body)
    requires forall i :: 0 <= i < |list| ==> list[i].seqNo == i + 1
    ensures Times(list, body) <= 1
    ensures Times(list, body) == 1 ==> body.seqNo <= |list|
  {
    if list != [] {
      var n := |list| - 1;
      DistinctOnce(list[..n], body);
      assert list == list[..n] + [list[n]];
      assert multiset(list) == multiset(list[..n]) + multiset{list[n]};
    }
  }

  /** Every action ever sent is pending, or confirmed and applied, or will never be applied. So
      a late copy of an earlier message changes nothing at the owner. */
  lemma LateCopiesAreHarmless(actions: seq<Action>, s: System, late: Request, t: System)
    requires Reaches(Start, actions, s) && late in s.sent && s.host.pending != Some(late.body)
    requires Apply(s, Deliver(late)) == Some(t)
    ensures t.owner == s.owner
    ensures late.body in s.acknowledged <==> late.body in s.owner.applied
    ensures late.body !in s.owner.applied ==> late.body.revision < s.owner.revision
  {
    RunKeeps(Start, actions, s);
    assert RequestOK(s, late);
    if late.body in s.owner.applied {
      var i :| 0 <= i < |s.owner.applied| && s.owner.applied[i] == late.body;
      assert late.body.seqNo == i + 1;
    }
  }

  /** The result of sending, deciding and receiving without anything in between. */
  lemma ExchangeResult(s: System, s1: System, s2: System, reply: Reply, t: System)
    requires s.host.pending.Some? && !s.host.sending && reply == Decide(s.owner, s.host.pending.value).0
    requires Apply(s, Send) == Some(s1)
    requires Apply(s1, Deliver(Request(s.attempt + 1, s.host.pending.value))) == Some(s2)
    requires Apply(s2, Receive(reply)) == Some(t)
    ensures t.owner == Decide(s.owner, s.host.pending.value).1
    ensures t.host == Answered(s.host.(sending := true), Some(reply))
  {}

  /** One undisturbed exchange settles the pending action: afterwards nothing is pending, both
      sides count alike, and the action has been applied exactly if it is confirmed. */
  lemma OneGoodExchangeSettles(actions: seq<Action>, s: System, s1: System, s2: System, reply: Reply, t: System)
    requires Reaches(Start, actions, s) && s.host.pending.Some? && !s.host.sending
    requires reply == Decide(s.owner, s.host.pending.value).0
    requires Apply(s, Send) == Some(s1)
    requires Apply(s1, Deliver(Request(s.attempt + 1, s.host.pending.value))) == Some(s2)
    requires Apply(s2, Receive(reply)) == Some(t)
    ensures t.host.pending == None && t.owner.last == t.host.sequence
    ensures reply.Conflict? <==> s.host.pending.value !in t.owner.applied
    ensures !reply.Conflict? <==> t.host.sequence == s.host.sequence + 1
  {
    var body := s.host.pending.value;
    RunKeeps(Start, actions, s);
    ExchangeResult(s, s1, s2, reply, t);
    if reply.Conflict? {
      RefusedIsDead(s, body);
    } else if reply.Duplicate? {
      assert s.owner.applied[s.owner.last - 1] == body;
    } else {
      assert t.owner.applied[|s.owner.applied|] == body;
    }
  }

  /** A tap on a fresh frame of the current source is applied: with nothing pending, the tap, one send,
      its delivery and the reply end with the action applied and counted on both sides. */
  lemma FreshTapIsApplied(actions: seq<Action>, s: System, food: bool) returns (t: System)
    requires Reaches(Start, actions, s) && s.host.pending.None? && s.host.frame == Some(s.owner.revision)
    ensures var body := Body(s.host.sequence + 1, s.owner.revision, food);
            && Reaches(s, [Interact(food, true), Send, Deliver(Request(s.attempt + 1, body)), Receive(Accepted)], t)
            && t.owner.applied == s.owner.applied + [body] && t.owner.last == t.host.sequence == s.host.sequence + 1
            && t.host.pending == None && t.acknowledged == s.acknowledged + [body]
  {
    RunKeeps(Start, actions, s);
    var body := Body(s.host.sequence + 1, s.owner.revision, food);
    var request := Request(s.attempt + 1, body);
    assert s.owner.last == s.host.sequence && !s.host.sending;
    assert s.owner.receipt != Some(body);
    var s1 := Apply(s, Interact(food, true)).value;
    var s2 := Apply(s1, Send).value;
    var s3 := Apply(s2, Deliver(request)).value;
    t := Apply(s3, Receive(Accepted)).value;
    FourSteps(s, Interact(food, true), s1, Send, s2, Deliver(request), s3, Receive(Accepted), t);
  }

  lemma FourSteps(s: System, a: Action, s1: System, b: Action, s2: System, c: Action, s3: System, d: Action, t: System)
    requires Apply(s, a) == Some(s1) && Apply(s1, b) == Some(s2) && Apply(s2, c) == Some(s3) && Apply(s3, d) == Some(t)
    ensures Reaches(s, [a, b, c, d], t)
  {
    assert [a, b, c, d][1..] == [b, c, d] && [b, c, d][1..] == [c, d] && [c, d][1..] == [d] && [d][1..] == [];
    assert Reaches(s3, [d], t);
    assert Reaches(s2, [c, d], t);
    assert Reaches(s1, [b, c, d], t);
  }
}
