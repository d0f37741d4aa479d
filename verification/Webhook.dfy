/** Events the engine delivers about terminated allocations: kept when they arrive,
    applied once, and tried again when their allocation was not known yet. */
module Webhooks {
  import opened Common

  datatype Alloc = Alloc(
    status: string, reason: Option<string>, actor: Option<string>, fee: Option<int>, endedAt: Option<int>)

  /** A row of the events table, keyed by its event id. */
  datatype Event = Event(
    kind: string, allocation: Option<int>, status: Option<string>, reason: Option<string>, actor: Option<string>,
    fee: Option<int>, terminatedAt: Option<int>, receivedAt: int, processedAt: Option<int>, error: Option<string>)

  /** `effects` is the history: the ids of the events applied to an allocation. */
  datatype Inbox = Inbox(events: map<string, Event>, allocs: map<int, Alloc>, effects: multiset<string>)

  const TERMINATED := "mam.allocation.terminated"
  const CANCELLED := "CANCELLED"

  /** The statuses the table's constraint admits. */
  predicate IsStatus(s: string) {
    s == "PAUSED" || s == "ACTIVE" || s == "STOPPING" || s == CANCELLED || s == "ERROR"
  }

  // ── applying one event ──

  predicate IsTermination(e: Event) {
    e.kind == TERMINATED && e.allocation.Some?
  }

  /** A missing or empty status means cancelled. */
  function StatusOf(e: Event): string {
    if e.status.Some? && e.status.value != "" then e.status.value else CANCELLED
  }

  function Terminate(a: Alloc, e: Event, now: int): Alloc {
    Alloc(StatusOf(e), e.reason, e.actor,
          if e.fee.Some? then e.fee else a.fee,
          if StatusOf(e) == CANCELLED && a.endedAt.None? then
            (if e.terminatedAt.Some? then e.terminatedAt else Some(now))
          else a.endedAt)
  }

  predicate Reaches(box: Inbox, e: Event) {
    IsTermination(e) && e.allocation.value in box.allocs
  }

  /** `_apply`, and whether it says it applied. An event of another kind is closed
      without effect; its answer is whether it names an allocation. */
  function Apply(box: Inbox, id: string, now: int): (Inbox, bool)
    requires id in box.events
  {
    var e := box.events[id];
    if !IsTermination(e) then
      var error := if e.allocation.Some? && e.allocation.value != 0 then None else Some("evento sin allocation_id");
      (box.(events := box.events[id := e.(processedAt := Some(now), error := error)]), e.allocation.Some?)
    else if e.allocation.value !in box.allocs then
      (box.(events := box.events[id := e.(error := Some("la suscripcion no esta en esta base"))]), false)
    else
      var aid := e.allocation.value;
      (Inbox(box.events[id := e.(processedAt := Some(now), error := None)],
             box.allocs[aid := Terminate(box.allocs[aid], e, now)],
             box.effects + multiset{id}), true)
  }

  /** A first delivery answers that it was processed when it reached its allocation, or
      was of another kind and named one. */
  predicate TakesEffect(box: Inbox, e: Event) {
    if IsTermination(e) then Reaches(box, e) && !Refused(box, e) else e.allocation.Some?
  }

  /** What the table's constraint refuses to store. */
  predicate Refused(box: Inbox, e: Event) {
    Reaches(box, e) && !IsStatus(StatusOf(e))
  }

  // ── operations ──

  /** A delivery: kept, then applied and committed apart. `dies` stops it between its
      two commits; a status the table refuses undoes the second. */
  function Receive(box: Inbox, id: string, e: Event, now: int, dies: bool): Inbox {
    if id == "" || id in box.events then box
    else
      var kept := box.(events := box.events[id := e.(receivedAt := now, processedAt := None, error := None)]);
      if dies || Refused(kept, kept.events[id]) then kept else Apply(kept, id, now).0
  }

  predicate Pending(box: Inbox, id: string) {
    id in box.events && box.events[id].processedAt.None?
  }

  ghost predicate NoneLater(box: Inbox, batch: seq<string>, id: string)
    requires id in box.events
  {
    forall i | 0 <= i < |batch| && batch[i] in box.events ::
      box.events[batch[i]].receivedAt <= box.events[id].receivedAt
  }

  /** What a listing of the oldest pending events, up to a limit, can return. */
  ghost predicate IsBatch(box: Inbox, batch: seq<string>, limit: nat) {
    && |batch| <= limit
    && (forall i | 0 <= i < |batch| :: Pending(box, batch[i]))
    && (forall i, j | 0 <= i < j < |batch| :: batch[i] != batch[j])
    && (forall i, j | 0 <= i < j < |batch| :: batch[i] in box.events && batch[j] in box.events
          && box.events[batch[i]].receivedAt <= box.events[batch[j]].receivedAt)
    && (forall id | Pending(box, id) && id !in batch :: |batch| == limit && NoneLater(box, batch, id))
  }

  /** One event more, and how many were applied; None when the database refuses it. */
  function ApplyNext(done: (Inbox, nat), id: string, now: int): Option<(Inbox, nat)>
    requires id in done.0.events
  {
    if Refused(done.0, done.0.events[id]) then None
    else
      var r := Apply(done.0, id, now);
      Some((r.0, done.1 + if r.1 then 1 else 0))
  }

  /** The retry loop; None when the database refuses one of its writes. */
  function ApplyAll(box: Inbox, batch: seq<string>, now: int): Option<(Inbox, nat)>
    requires forall i | 0 <= i < |batch| :: batch[i] in box.events
    ensures var r := ApplyAll(box, batch, now); r.Some? ==> r.value.0.events.Keys == box.events.Keys
  {
    if batch == [] then Some((box, 0))
    else
      match ApplyAll(box, batch[..|batch| - 1], now)
      case None => None
      case Some(done) => ApplyNext(done, batch[|batch| - 1], now)
  }

  /** `retry_pending`: all of the batch, or nothing. */
  function Retry(box: Inbox, batch: seq<string>, now: int): Inbox
    requires forall i | 0 <= i < |batch| :: batch[i] in box.events
  {
    match ApplyAll(box, batch, now)
    case None => box
    case Some(done) => done.0
  }

  datatype Op =
    | Deliver(id: string, event: Event, now: int, dies: bool)
    | RetryPending(batch: seq<string>, limit: nat, now: int)
    | Import(aid: int, alloc: Alloc)
    | Edit(aid: int, alloc: Alloc)

  /** Deliveries, retries, imports and local changes, one at a time. */
  ghost function Serve(box: Inbox, op: Op): Inbox {
    match op
    case Deliver(id, e, now, dies) => Receive(box, id, e, now, dies)
    case RetryPending(batch, limit, now) => if IsBatch(box, batch, limit) then Retry(box, batch, now) else box
    case Import(aid, alloc) =>
      if aid in box.allocs || !IsStatus(alloc.status) then box else box.(allocs := box.allocs[aid := alloc])
    case Edit(aid, alloc) =>
      if aid !in box.allocs || !IsStatus(alloc.status) then box else box.(allocs := box.allocs[aid := alloc])
  }

  const Empty := Inbox(map[], map[], multiset{})

  ghost function ServeAll(box: Inbox, ops: seq<Op>): Inbox
    decreases |ops|
  {
    if ops == [] then box else ServeAll(Serve(box, ops[0]), ops[1..])
  }
}

/** Each event reaches its allocation at most once, and a retry that covers the
    pending events leaves none behind that it could apply. */
module WebhookTheorems {
  import opened Common
  import opened Webhooks

  // ── at most once ──

  ghost predicate EffectOk(box: Inbox, id: string) {
    box.effects[id] <= 1 && (box.effects[id] == 1 ==> id in box.events && box.events[id].processedAt.Some?)
  }

  ghost predicate InboxInv(box: Inbox) {
    && (forall id {:trigger box.effects[id]} :: EffectOk(box, id))
    && (forall aid | aid in box.allocs :: IsStatus(box.allocs[aid].status))
  }

  /** Events once processed stay as they are. */
  ghost predicate Absorbs(box: Inbox, q: Inbox) {
    forall id | id in box.events && box.events[id].processedAt.Some? ::
      id in q.events && q.events[id] == box.events[id] && q.effects[id] == box.effects[id]
  }

  lemma ApplyKeeps(box: Inbox, id: string, now: int)
    requires InboxInv(box) && Pending(box, id) && !Refused(box, box.events[id])
    ensures InboxInv(Apply(box, id, now).0) && Absorbs(box, Apply(box, id, now).0)
  {
    var q := Apply(box, id, now).0;
    forall i ensures EffectOk(q, i) {
      assert EffectOk(box, i);
    }
  }

  /** Applying one event leaves the others as they were. */
  lemma OthersWait(box: Inbox, id: string, now: int)
    requires id in box.events
    ensures var q := Apply(box, id, now).0;
      && q.allocs.Keys == box.allocs.Keys
      && forall i | i != id && i in box.events :: i in q.events && q.events[i] == box.events[i]
  {
  }

  lemma {:induction false} ApplyAllLeaves(box: Inbox, batch: seq<string>, now: int, id: string)
    requires (forall i | 0 <= i < |batch| :: batch[i] in box.events) && ApplyAll(box, batch, now).Some?
    requires id in box.events && id !in batch
    ensures var q := ApplyAll(box, batch, now).value.0;
      q.allocs.Keys == box.allocs.Keys && id in q.events && q.events[id] == box.events[id]
  {
    if batch != [] {
      var n := |batch| - 1;
      ApplyAllLeaves(box, batch[..n], now, id);
      assert batch[n] in batch;
      OthersWait(ApplyAll(box, batch[..n], now).value.0, batch[n], now);
    }
  }

  ghost predicate Distinct(batch: seq<string>) {
    forall i, j | 0 <= i < j < |batch| :: batch[i] != batch[j]
  }

  lemma {:induction false} ApplyAllKeeps(box: Inbox, batch: seq<string>, now: int)
    requires InboxInv(box) && Distinct(batch)
    requires (forall i | 0 <= i < |batch| :: batch[i] in box.events)
    requires (forall i | 0 <= i < |batch| :: Pending(box, batch[i]))
    requires ApplyAll(box, batch, now).Some?
    ensures InboxInv(ApplyAll(box, batch, now).value.0) && Absorbs(box, ApplyAll(box, batch, now).value.0)
  {
    if batch != [] {
      var n := |batch| - 1;
      ApplyAllKeeps(box, batch[..n], now);
      ApplyAllLeaves(box, batch[..n], now, batch[n]);
      ApplyKeeps(ApplyAll(box, batch[..n], now).value.0, batch[n], now);
    }
  }

  lemma ServeKeeps(box: Inbox, op: Op)
    requires InboxInv(box)
    ensures InboxInv(Serve(box, op)) && Absorbs(box, Serve(box, op))
  {
    match op
    case Deliver(id, e, now, dies) =>
      if id != "" && id !in box.events {
        var kept := box.(events := box.events[id := e.(receivedAt := now, processedAt := None, error := None)]);
        forall i ensures EffectOk(kept, i) {
          assert EffectOk(box, i);
        }
        if !Refused(kept, kept.events[id]) {
          ApplyKeeps(kept, id, now);
        }
      }
    case RetryPending(batch, limit, now) =>
      if IsBatch(box, batch, limit) && ApplyAll(box, batch, now).Some? {
        ApplyAllKeeps(box, batch, now);
      }
    case Import(aid, alloc) => if IsStatus(alloc.status) { EditKeeps(box, aid, alloc); }
    case Edit(aid, alloc) => if IsStatus(alloc.status) { EditKeeps(box, aid, alloc); }
  }

  lemma EditKeeps(box: Inbox, aid: int, alloc: Alloc)
    requires InboxInv(box) && IsStatus(alloc.status)
    ensures InboxInv(box.(allocs := box.allocs[aid := alloc]))
  {
    var q := box.(allocs := box.allocs[aid := alloc]);
    forall i ensures EffectOk(q, i) {
      assert EffectOk(box, i);
    }
  }

  lemma {:induction false} ServeAllKeeps(box: Inbox, ops: seq<Op>)
    requires InboxInv(box)
    ensures InboxInv(ServeAll(box, ops)) && Absorbs(box, ServeAll(box, ops))
    decreases |ops|
  {
    if ops != [] {
      ServeKeeps(box, ops[0]);
      ServeAllKeeps(Serve(box, ops[0]), ops[1..]);
    }
  }

  /** Whatever is delivered again, dies between its commits, is imported or retried, an
      event reaches its allocation at most once, and then never changes. */
  lemma AppliedAtMostOnce(ops: seq<Op>, more: seq<Op>, id: string)
    ensures var box := ServeAll(Empty, ops);
      && box.effects[id] <= 1
      && (box.effects[id] == 1 ==>
            && id in box.events && id in ServeAll(box, more).events
            && ServeAll(box, more).events[id] == box.events[id] && ServeAll(box, more).effects[id] == 1)
  {
    forall i ensures EffectOk(Empty, i) {}
    ServeAllKeeps(Empty, ops);
    var box := ServeAll(Empty, ops);
    assert EffectOk(box, id);
    ServeAllKeeps(box, more);
  }

  // ── coverage ──

  /** Applying an event closes it, unless its allocation is not known. */
  lemma ApplyCloses(box: Inbox, id: string, now: int)
    requires id in box.events
    ensures Apply(box, id, now).0.events[id].processedAt.Some?
       <==> !IsTermination(box.events[id]) || Reaches(box, box.events[id]) || box.events[id].processedAt.Some?
  {
  }

  /** No event of the batch has a status the table refuses. */
  ghost predicate AllStorable(box: Inbox, batch: seq<string>) {
    forall i | 0 <= i < |batch| :: batch[i] in box.events && !Refused(box, box.events[batch[i]])
  }

  lemma {:induction false} BatchGoesThroughIff(box: Inbox, batch: seq<string>, now: int)
    requires Distinct(batch) && forall i | 0 <= i < |batch| :: batch[i] in box.events
    ensures ApplyAll(box, batch, now).Some? <==> AllStorable(box, batch)
  {
    if batch != [] {
      var n := |batch| - 1;
      BatchGoesThroughIff(box, batch[..n], now);
      if ApplyAll(box, batch[..n], now).Some? {
        ApplyAllLeaves(box, batch[..n], now, batch[n]);
        assert forall i | 0 <= i < n :: batch[..n][i] == batch[i];
      }
      if AllStorable(box, batch) {
        assert AllStorable(box, batch[..n]) by {
          forall i | 0 <= i < n ensures batch[..n][i] in box.events && !Refused(box, box.events[batch[..n][i]]) {
            assert batch[..n][i] == batch[i];
          }
        }
      }
    }
  }

  lemma {:induction false} BatchCloses(box: Inbox, batch: seq<string>, now: int, k: nat)
    requires Distinct(batch) && (forall i | 0 <= i < |batch| :: batch[i] in box.events)
    requires k < |batch| && ApplyAll(box, batch, now).Some? && Reaches(box, box.events[batch[k]])
    ensures ApplyAll(box, batch, now).value.0.events[batch[k]].processedAt.Some?
  {
    var n := |batch| - 1;
    if k == n {
      ApplyAllLeaves(box, batch[..n], now, batch[n]);
      ApplyCloses(ApplyAll(box, batch[..n], now).value.0, batch[n], now);
    } else {
      assert batch[..n][k] == batch[k];
      BatchCloses(box, batch[..n], now, k);
      OthersWait(ApplyAll(box, batch[..n], now).value.0, batch[n], now);
    }
  }

  /** The terminations an inbox could apply have all been applied. */
  ghost predicate CaughtUp(box: Inbox) {
    forall id | id in box.events && Reaches(box, box.events[id]) :: box.events[id].processedAt.Some?
  }

  /** After a retry whose batch holds every pending event, every termination of a known
      allocation is processed: if and only if no pending one carries a status the table
      refuses. One that does undoes the whole batch. */
  lemma RetryCatchesUpIff(box: Inbox, batch: seq<string>, limit: nat, now: int)
    requires IsBatch(box, batch, limit) && forall id | Pending(box, id) :: id in batch
    ensures CaughtUp(Retry(box, batch, now)) <==> AllStorable(box, batch)
  {
    BatchGoesThroughIff(box, batch, now);
    var q := Retry(box, batch, now);
    if AllStorable(box, batch) {
      forall id | id in q.events && Reaches(q, q.events[id]) ensures q.events[id].processedAt.Some? {
        BatchEvent(box, batch, now, id);
        if id in batch {
          var k :| 0 <= k < |batch| && batch[k] == id;
          BatchCloses(box, batch, now, k);
        } else {
          ApplyAllLeaves(box, batch, now, id);
        }
      }
    } else {
      var i :| 0 <= i < |batch| && Refused(box, box.events[batch[i]]);
      assert Pending(box, batch[i]);
    }
  }

  /** A batch moves neither the terms of an event nor the set of allocations. */
  lemma {:induction false} BatchEvent(box: Inbox, batch: seq<string>, now: int, id: string)
    requires (forall i | 0 <= i < |batch| :: batch[i] in box.events) && ApplyAll(box, batch, now).Some?
    requires id in box.events
    ensures var q := ApplyAll(box, batch, now).value.0;
      && q.allocs.Keys == box.allocs.Keys
      && IsTermination(q.events[id]) == IsTermination(box.events[id])
      && q.events[id].allocation == box.events[id].allocation
  {
    if batch != [] {
      BatchEvent(box, batch[..|batch| - 1], now, id);
    }
  }

  /** A limit that is no less than what is pending gives such a batch. */
  lemma LimitCovers(box: Inbox, batch: seq<string>, limit: nat, pending: set<string>)
    requires IsBatch(box, batch, limit) && (forall id :: id in pending <==> Pending(box, id)) && |pending| <= limit
    ensures forall id | Pending(box, id) :: id in batch
  {
    forall id | Pending(box, id) ensures id in batch {
      if id !in batch {
        var listed := set i | 0 <= i < |batch| :: batch[i];
        DistinctCount(batch);
        assert listed <= pending - {id};
        SubsetCount(listed, pending - {id});
      }
    }
  }

  lemma {:induction false} DistinctCount(batch: seq<string>)
    requires Distinct(batch)
    ensures |set i | 0 <= i < |batch| :: batch[i]| == |batch|
  {
    if batch != [] {
      var n := |batch| - 1;
      var init := batch[..n];
      DistinctCount(init);
      var all, some := set i | 0 <= i < |batch| :: batch[i], set i | 0 <= i < |init| :: init[i];
      forall x ensures x in all <==> x in some + {batch[n]} {
        if x in all {
          var i :| 0 <= i < |batch| && batch[i] == x;
          assert i < n ==> init[i] == x;
        }
        if x in some {
          var i :| 0 <= i < |init| && init[i] == x;
          assert batch[i] == x;
        }
      }
      assert all == some + {batch[n]};
    }
  }

  lemma {:induction false} SubsetCount(a: set<string>, b: set<string>)
    requires a <= b
    ensures |a| <= |b|
  {
    if a != {} {
      var x :| x in a;
      SubsetCount(a - {x}, b - {x});
    }
  }
}

/** The webhook service as the program has it. */
module WebhookServices {
  import opened Common
  import opened Webhooks

  class MamWebhookService {
    var events: map<string, Event>
    var allocs: map<int, Alloc>
    ghost var effects: multiset<string>

    ghost function View(): Inbox
      reads this
    {
      Inbox(events, allocs, effects)
    }

    constructor ()
      ensures View() == Empty
    {
      events, allocs, effects := map[], map[], multiset{};
    }

    /** `_apply`, one field after another. */
    method ApplyEvent(id: string, now: int) returns (applied: bool)
      requires id in events
      modifies this
      ensures (View(), applied) == Apply(old(View()), id, now)
    {
      var e := events[id];
      if e.kind != TERMINATED || e.allocation.None? {
        e := e.(processedAt := Some(now));
        var named := e.allocation.Some? && e.allocation.value != 0;
        e := e.(error := if named then None else Some("evento sin allocation_id"));
        events := events[id := e];
        return e.allocation.Some?;
      }
      var aid := e.allocation.value;
      if aid !in allocs {
        events := events[id := e.(error := Some("la suscripcion no esta en esta base"))];
        return false;
      }
      var a := allocs[aid];
      a := a.(status := StatusOf(e), reason := e.reason, actor := e.actor);
      if e.fee.Some? {
        a := a.(fee := e.fee);
      }
      if a.status == CANCELLED && a.endedAt.None? {
        a := a.(endedAt := if e.terminatedAt.Some? then e.terminatedAt else Some(now));
      }
      allocs := allocs[aid := a];
      events := events[id := e.(processedAt := Some(now), error := None)];
      effects := effects + multiset{id};
      return true;
    }

    /** A delivery that nothing stops. */
    method ReceiveEvent(id: string, e: Event, now: int) returns (duplicate: bool, processed: bool)
      requires id != ""
      modifies this
      ensures View() == Receive(old(View()), id, e, now, false)
      ensures duplicate <==> id in old(events)
      ensures duplicate ==> (processed <==> events[id].processedAt.Some?)
      ensures !duplicate ==> (processed <==> TakesEffect(old(View()), e))
    {
      if id in events {
        return true, events[id].processedAt.Some?;
      }
      events := events[id := e.(receivedAt := now, processedAt := None, error := None)];
      if Refused(Inbox(events, allocs, multiset{}), events[id]) {
        return false, false;
      }
      processed := ApplyEvent(id, now);
      return false, processed;
    }

    /** One event of a retry, unless the table refuses its status. */
    method RetryEvent(id: string, now: int, resolved: nat) returns (r: Option<nat>)
      requires id in events
      modifies this
      ensures ApplyNext((old(View()), resolved), id, now) == if r.Some? then Some((View(), r.value)) else None
    {
      if Refused(Inbox(events, allocs, multiset{}), events[id]) {
        return None;
      }
      var applied := ApplyEvent(id, now);
      return Some(resolved + if applied then 1 else 0);
    }

    /** The retry loop, up to the first event the table refuses. */
    method ApplyBatch(batch: seq<string>, now: int) returns (r: Option<nat>)
      requires forall i | 0 <= i < |batch| :: batch[i] in events
      modifies this
      ensures ApplyAll(old(View()), batch, now) == if r.Some? then Some((View(), r.value)) else None
    {
      ghost var box := View();
      r := Some(0);
      for i := 0 to |batch|
        invariant r.Some? && ApplyAll(box, batch[..i], now) == Some((View(), r.value))
      {
        NextApplies(box, batch, i, now);
        r := RetryEvent(batch[i], now, r.value);
        if r.None? {
          RefusalStays(box, batch, i + 1, now);
          return;
        }
      }
      assert batch[..|batch|] == batch;
    }

    /** `retry_pending` over the events the listing returned. */
    method RetryBatch(batch: seq<string>, now: int) returns (r: Option<nat>)
      requires forall i | 0 <= i < |batch| :: batch[i] in events
      modifies this
      ensures View() == Retry(old(View()), batch, now)
      ensures r == match ApplyAll(old(View()), batch, now) case None => None case Some(done) => Some(done.1)
    {
      var savedEvents, savedAllocs := events, allocs;
      ghost var savedEffects := effects;
      r := ApplyBatch(batch, now);
      if r.None? {
        events, allocs, effects := savedEvents, savedAllocs, savedEffects;
      }
    }
  }

  /** What the next event of the batch adds. */
  lemma NextApplies(box: Inbox, batch: seq<string>, i: nat, now: int)
    requires i < |batch| && (forall k | 0 <= k < |batch| :: batch[k] in box.events)
    requires ApplyAll(box, batch[..i], now).Some?
    ensures var done := ApplyAll(box, batch[..i], now).value;
      batch[i] in done.0.events && ApplyAll(box, batch[..i + 1], now) == ApplyNext(done, batch[i], now)
  {
    assert batch[..i + 1][..i] == batch[..i];
  }

  /** A write refused stays refused whatever follows. */
  lemma {:induction false} RefusalStays(box: Inbox, batch: seq<string>, n: nat, now: int)
    requires n <= |batch| && (forall i | 0 <= i < |batch| :: batch[i] in box.events)
    requires ApplyAll(box, batch[..n], now).None?
    ensures ApplyAll(box, batch, now).None?
    decreases |batch|
  {
    if n < |batch| {
      var init := batch[..|batch| - 1];
      assert init[..n] == batch[..n];
      RefusalStays(box, init, n, now);
    } else {
      assert batch[..n] == batch;
    }
  }
}
