/** What an event does to its allocation and what is answered, told from the fields it
    carries. */
module WebhookEffects {
  import opened Common
  import opened Webhooks
  import opened WebhookTheorems

  /** A termination that names its allocation. */
  predicate Terminates(e: Event) {
    e.kind == "mam.allocation.terminated" && e.allocation.Some?
  }

  /** What it says of the status; silent or empty, it is cancelled. */
  function SaidStatus(e: Event): string {
    match e.status
    case None => "CANCELLED"
    case Some(s) => if s == "" then "CANCELLED" else s
  }

  predicate Storable(s: string) {
    s in ["PAUSED", "ACTIVE", "STOPPING", "CANCELLED", "ERROR"]
  }

  /** The allocation a termination leaves: its status, reason and actor are the event's,
      its fee too if the event has one, and it ends when cancelled, once. */
  predicate Ended(a: Alloc, was: Alloc, e: Event, now: int) {
    && a.status == SaidStatus(e) && a.reason == e.reason && a.actor == e.actor
    && (e.fee.Some? ==> a.fee == e.fee) && (e.fee.None? ==> a.fee == was.fee)
    && (was.endedAt.Some? || a.status != "CANCELLED" ==> a.endedAt == was.endedAt)
    && (was.endedAt.None? && a.status == "CANCELLED" ==>
          a.endedAt == Some(match e.terminatedAt case Some(at) => at case None => now))
  }

  /** The terms of an event, whatever became of it. */
  predicate SameTerms(e: Event, f: Event) {
    e.(receivedAt := 0, processedAt := None, error := None) == f.(receivedAt := 0, processedAt := None, error := None)
  }

  /** What applying an event leaves. */
  ghost predicate Applied(box: Inbox, q: Inbox, id: string, now: int)
    requires id in box.events
  {
    var e := box.events[id];
    && q.events.Keys == box.events.Keys && SameTerms(q.events[id], e) && q.events[id].receivedAt == e.receivedAt
    && (forall i | i in box.events && i != id :: q.events[i] == box.events[i])
    && if !Terminates(e) then
         && q.allocs == box.allocs && q.effects == box.effects && q.events[id].processedAt == Some(now)
         && (q.events[id].error.None? <==> e.allocation.Some? && e.allocation != Some(0))
       else if e.allocation.value !in box.allocs then
         && q.allocs == box.allocs && q.effects == box.effects && q.events[id].processedAt == e.processedAt
         && q.events[id].error.Some?
       else
         var aid := e.allocation.value;
         && q.effects == box.effects + multiset{id} && q.events[id].processedAt == Some(now)
         && q.events[id].error.None?
         && q.allocs.Keys == box.allocs.Keys && Ended(q.allocs[aid], box.allocs[aid], e, now)
         && forall i | i in box.allocs && i != aid :: q.allocs[i] == box.allocs[i]
  }

  lemma ApplyLeaves(box: Inbox, id: string, now: int)
    requires id in box.events
    ensures Applied(box, Apply(box, id, now).0, id, now)
    ensures Apply(box, id, now).1 <==>
      var e := box.events[id]; e.allocation.Some? && (Terminates(e) ==> e.allocation.value in box.allocs)
  {
  }

  /** The table's constraint stops a status it does not know, on an allocation it has. */
  lemma RefusedIff(box: Inbox, e: Event)
    ensures Refused(box, e) <==> Terminates(e) && e.allocation.value in box.allocs && !Storable(SaidStatus(e))
  {
  }

  /** A first delivery is kept as it came and, unless it dies or its status is refused,
      applied; a repeat, or one without an id, changes nothing. */
  lemma DeliveryLeaves(box: Inbox, id: string, e: Event, now: int, dies: bool)
    ensures var q := Serve(box, Deliver(id, e, now, dies));
      if id == "" || id in box.events then q == box
      else
        var kept := box.(events := box.events[id := e.(receivedAt := now, processedAt := None, error := None)]);
        if dies || (Terminates(e) && e.allocation.value in box.allocs && !Storable(SaidStatus(e))) then q == kept
        else Applied(kept, q, id, now)
  {
    if id != "" && id !in box.events {
      var kept := box.(events := box.events[id := e.(receivedAt := now, processedAt := None, error := None)]);
      RefusedIff(kept, kept.events[id]);
      if !dies && !Refused(kept, kept.events[id]) {
        ApplyLeaves(kept, id, now);
      }
    }
  }

  // ── a retry ──

  /** The event reaches this allocation. */
  predicate Ends(box: Inbox, id: string, aid: int) {
    id in box.events && Terminates(box.events[id]) && box.events[id].allocation == Some(aid) && aid in box.allocs
  }

  /** Of the events of a batch that end an allocation, the one at k is the last. */
  predicate LastToEnd(box: Inbox, batch: seq<string>, k: nat, aid: int) {
    && k < |batch| && Ends(box, batch[k], aid)
    && forall j | k < j < |batch| :: !Ends(box, batch[j], aid)
  }

  /** What the last word on an allocation leaves in it. */
  predicate ShowsLast(a: Alloc, e: Event) {
    && a.status == SaidStatus(e) && a.reason == e.reason && a.actor == e.actor
    && (e.fee.Some? ==> a.fee == e.fee) && (a.status == "CANCELLED" ==> a.endedAt.Some?)
  }

  lemma LastStep(box: Inbox, batch: seq<string>, now: int)
    requires (forall i | 0 <= i < |batch| :: batch[i] in box.events) && ApplyAll(box, batch, now).Some?
    requires Distinct(batch) && batch != []
    ensures var n := |batch| - 1;
      && ApplyAll(box, batch[..n], now).Some?
      && var p, q := ApplyAll(box, batch[..n], now).value, ApplyAll(box, batch, now).value;
         && batch[n] in p.0.events && p.0.events[batch[n]] == box.events[batch[n]] && p.0.allocs.Keys == box.allocs.Keys
         && Applied(p.0, q.0, batch[n], now)
         && q.1 == p.1 + if Apply(p.0, batch[n], now).1 then 1 else 0
  {
    var n := |batch| - 1;
    assert batch[n] !in batch[..n];
    ApplyAllLeaves(box, batch[..n], now, batch[n]);
    ApplyLeaves(ApplyAll(box, batch[..n], now).value.0, batch[n], now);
  }

  lemma StepShows(p: Inbox, q: Inbox, id: string, now: int, aid: int)
    requires id in p.events && Applied(p, q, id, now) && aid in p.allocs
    ensures aid in q.allocs
    ensures if Ends(p, id, aid) then ShowsLast(q.allocs[aid], p.events[id]) else q.allocs[aid] == p.allocs[aid]
  {
  }

  /** The last event of a batch that goes through. */
  lemma LastShows(box: Inbox, batch: seq<string>, now: int, aid: int)
    requires (forall i | 0 <= i < |batch| :: batch[i] in box.events) && ApplyAll(box, batch, now).Some?
    requires Distinct(batch) && batch != [] && aid in box.allocs
    ensures var n := |batch| - 1;
      && ApplyAll(box, batch[..n], now).Some?
      && var p, q := ApplyAll(box, batch[..n], now).value.0, ApplyAll(box, batch, now).value.0;
         && aid in p.allocs && aid in q.allocs
         && if Ends(box, batch[n], aid) then ShowsLast(q.allocs[aid], box.events[batch[n]])
            else q.allocs[aid] == p.allocs[aid]
  {
    LastStep(box, batch, now);
    var n := |batch| - 1;
    StepShows(ApplyAll(box, batch[..n], now).value.0, ApplyAll(box, batch, now).value.0, batch[n], now, aid);
  }

  /** After a retry that went through, an allocation shows the last event of the batch that
      reached it. */
  lemma {:induction false} RetryShows(box: Inbox, batch: seq<string>, now: int, k: nat, aid: int)
    requires (forall i | 0 <= i < |batch| :: batch[i] in box.events) && ApplyAll(box, batch, now).Some?
    requires Distinct(batch) && LastToEnd(box, batch, k, aid)
    ensures aid in ApplyAll(box, batch, now).value.0.allocs
    ensures ShowsLast(ApplyAll(box, batch, now).value.0.allocs[aid], box.events[batch[k]])
  {
    var n := |batch| - 1;
    LastShows(box, batch, now, aid);
    if k < n {
      assert forall j | k <= j < n :: batch[..n][j] == batch[j];
      RetryShows(box, batch[..n], now, k, aid);
    }
  }

  /** One that none reached is as it was. */
  lemma {:induction false} RetryLeavesOthers(box: Inbox, batch: seq<string>, now: int, aid: int)
    requires (forall i | 0 <= i < |batch| :: batch[i] in box.events) && ApplyAll(box, batch, now).Some?
    requires Distinct(batch) && aid in box.allocs && forall j | 0 <= j < |batch| :: !Ends(box, batch[j], aid)
    ensures aid in ApplyAll(box, batch, now).value.0.allocs
    ensures ApplyAll(box, batch, now).value.0.allocs[aid] == box.allocs[aid]
  {
    if batch != [] {
      var n := |batch| - 1;
      LastShows(box, batch, now, aid);
      assert forall j | 0 <= j < n :: batch[..n][j] == batch[j];
      RetryLeavesOthers(box, batch[..n], now, aid);
    }
  }

  /** How many events of a batch take effect: terminations of known allocations, and other
      events that name one. */
  function CountOf(box: Inbox, batch: seq<string>): nat
    requires forall i | 0 <= i < |batch| :: batch[i] in box.events
  {
    if batch == [] then 0
    else
      var e := box.events[batch[|batch| - 1]];
      CountOf(box, batch[..|batch| - 1])
      + if e.allocation.Some? && (Terminates(e) ==> e.allocation.value in box.allocs) then 1 else 0
  }

  lemma {:induction false} RetryCounts(box: Inbox, batch: seq<string>, now: int)
    requires (forall i | 0 <= i < |batch| :: batch[i] in box.events) && ApplyAll(box, batch, now).Some?
    requires Distinct(batch)
    ensures ApplyAll(box, batch, now).value.1 == CountOf(box, batch)
  {
    if batch != [] {
      var n := |batch| - 1;
      LastStep(box, batch, now);
      ApplyLeaves(ApplyAll(box, batch[..n], now).value.0, batch[n], now);
      RetryCounts(box, batch[..n], now);
    }
  }
}
