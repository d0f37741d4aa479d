/** Deliveries and retries whose commits interleave: what makes an event's effects
    repeat, exactly, and the inputs that show the limits of a retry. */
module WebhookOverlap {
  import opened Common
  import opened Webhooks
  import opened WebhookTheorems

  /** The tables, the deliveries between their two commits, and the retries between
      their listing and their commit. */
  datatype Desk = Desk(box: Inbox, delivering: set<string>, retrying: map<nat, seq<string>>)

  datatype Step =
    | Keep(id: string, event: Event, now: int)
    | Finish(id: string, now: int)
    | ReadBatch(rid: nat, batch: seq<string>, limit: nat)
    | CommitBatch(rid: nat, now: int)
    | Die(id: string)
    | Drop(rid: nat)
    | SetAlloc(aid: int, alloc: Alloc)

  const Start := Desk(Empty, {}, map[])

  /** The first commit of a delivery; a repeat changes nothing. */
  function DoKeep(d: Desk, id: string, e: Event, now: int): Desk {
    if id == "" || id in d.box.events then d
    else
      d.(box := d.box.(events := d.box.events[id := e.(receivedAt := now, processedAt := None, error := None)]),
         delivering := d.delivering + {id})
  }

  /** Its second commit applies the event without looking whether it was. */
  function DoFinish(d: Desk, id: string, now: int): Desk {
    if id !in d.delivering || id !in d.box.events then d
    else
      var q := d.(delivering := d.delivering - {id});
      if Refused(d.box, d.box.events[id]) then q else q.(box := Apply(d.box, id, now).0)
  }

  ghost predicate AllKept(box: Inbox, batch: seq<string>) {
    forall i | 0 <= i < |batch| :: batch[i] in box.events
  }

  /** The commit of a retry applies what its listing found pending. */
  ghost function DoCommitBatch(d: Desk, rid: nat, now: int): Desk {
    if rid !in d.retrying || !AllKept(d.box, d.retrying[rid]) then d
    else d.(box := Retry(d.box, d.retrying[rid], now), retrying := d.retrying - {rid})
  }

  ghost function Exec(d: Desk, step: Step): Desk {
    match step
    case Keep(id, e, now) => DoKeep(d, id, e, now)
    case Finish(id, now) => DoFinish(d, id, now)
    case ReadBatch(rid, batch, limit) =>
      if rid in d.retrying || !IsBatch(d.box, batch, limit) then d else d.(retrying := d.retrying[rid := batch])
    case CommitBatch(rid, now) => DoCommitBatch(d, rid, now)
    case Die(id) => d.(delivering := d.delivering - {id})
    case Drop(rid) => d.(retrying := d.retrying - {rid})
    case SetAlloc(aid, alloc) =>
      if IsStatus(alloc.status) then d.(box := d.box.(allocs := d.box.allocs[aid := alloc])) else d
  }

  ghost function Run(d: Desk, steps: seq<Step>): Desk {
    Fold(Exec, d, steps)
  }

  // ── the invariant ──

  /** A termination is processed exactly when it reached its allocation. */
  ghost predicate EventOk(box: Inbox, id: string) {
    && (box.effects[id] > 0 ==> id in box.events)
    && (id in box.events && IsTermination(box.events[id]) ==>
          (box.events[id].processedAt.Some? <==> box.effects[id] > 0))
    && (box.effects[id] > 0 ==> IsTermination(box.events[id]))
  }

  ghost predicate BoxOk(box: Inbox) {
    forall id {:trigger box.effects[id]} :: EventOk(box, id)
  }

  ghost predicate DeskInv(d: Desk) {
    && BoxOk(d.box)
    && (forall id | id in d.delivering :: id in d.box.events)
    && (forall rid | rid in d.retrying :: Distinct(d.retrying[rid]) && AllKept(d.box, d.retrying[rid]))
  }

  // ── what a commit applies ──

  /** The commit goes through and reaches the allocation of event id. */
  ghost predicate AppliesTo(d: Desk, step: Step, id: string) {
    id in d.box.events && Reaches(d.box, d.box.events[id]) &&
    match step
    case Finish(i, _) => i == id && id in d.delivering && !Refused(d.box, d.box.events[id])
    case CommitBatch(rid, now) =>
      rid in d.retrying && AllKept(d.box, d.retrying[rid]) && id in d.retrying[rid]
      && ApplyAll(d.box, d.retrying[rid], now).Some?
    case _ => false
  }

  /** Overtaken: the event was processed since the request took it for pending. */
  ghost predicate Overtaken(d: Desk, step: Step, id: string) {
    AppliesTo(d, step, id) && d.box.events[id].processedAt.Some?
  }

  lemma ApplyOk(box: Inbox, id: string, now: int)
    requires BoxOk(box) && id in box.events
    ensures BoxOk(Apply(box, id, now).0) && Apply(box, id, now).0.events.Keys == box.events.Keys
    ensures forall i :: (Apply(box, id, now).0.effects[i]
                      == box.effects[i] + if i == id && Reaches(box, box.events[id]) then 1 else 0)
  {
    var q := Apply(box, id, now).0;
    forall i ensures EventOk(q, i) {
      assert EventOk(box, i);
    }
  }

  lemma {:induction false} BatchOk(box: Inbox, batch: seq<string>, now: int)
    requires BoxOk(box) && AllKept(box, batch) && ApplyAll(box, batch, now).Some?
    ensures BoxOk(ApplyAll(box, batch, now).value.0)
  {
    if batch != [] {
      BatchOk(box, batch[..|batch| - 1], now);
      ApplyOk(ApplyAll(box, batch[..|batch| - 1], now).value.0, batch[|batch| - 1], now);
    }
  }

  lemma {:induction false} BatchEffects(box: Inbox, batch: seq<string>, now: int, id: string)
    requires BoxOk(box) && Distinct(batch) && AllKept(box, batch) && ApplyAll(box, batch, now).Some?
    ensures ApplyAll(box, batch, now).value.0.effects[id]
         == box.effects[id] + if id in batch && Reaches(box, box.events[id]) then 1 else 0
  {
    if batch != [] {
      var n := |batch| - 1;
      var init, s := batch[..n], ApplyAll(box, batch[..n], now).value.0;
      BatchEffects(box, init, now, id);
      BatchOk(box, init, now);
      BatchEvent(box, init, now, batch[n]);
      ApplyOk(s, batch[n], now);
      assert batch == init + [batch[n]];
      assert batch[n] !in init;
    }
  }

  lemma KeepOk(d: Desk, id: string, e: Event, now: int)
    requires DeskInv(d)
    ensures DeskInv(DoKeep(d, id, e, now)) && DoKeep(d, id, e, now).box.effects == d.box.effects
  {
    var q := DoKeep(d, id, e, now);
    forall i ensures EventOk(q.box, i) {
      assert EventOk(d.box, i);
    }
  }

  lemma SetAllocOk(box: Inbox, aid: int, alloc: Alloc)
    requires BoxOk(box)
    ensures BoxOk(box.(allocs := box.allocs[aid := alloc]))
  {
    var q := box.(allocs := box.allocs[aid := alloc]);
    forall i ensures EventOk(q, i) {
      assert EventOk(box, i);
    }
  }

  /** A step adds an effect of the event exactly when it applies it. */
  ghost predicate EffectsAdd(d: Desk, step: Step, id: string) {
    Exec(d, step).box.effects[id] == d.box.effects[id] + if AppliesTo(d, step, id) then 1 else 0
  }

  lemma FinishEffects(d: Desk, i: string, now: int, id: string)
    requires DeskInv(d)
    ensures DeskInv(Exec(d, Finish(i, now))) && EffectsAdd(d, Finish(i, now), id)
  {
    if i in d.delivering {
      ApplyOk(d.box, i, now);
    }
  }

  lemma CommitEffects(d: Desk, rid: nat, now: int, id: string)
    requires DeskInv(d)
    ensures DeskInv(Exec(d, CommitBatch(rid, now))) && EffectsAdd(d, CommitBatch(rid, now), id)
  {
    if rid in d.retrying && ApplyAll(d.box, d.retrying[rid], now).Some? {
      BatchOk(d.box, d.retrying[rid], now);
      BatchEffects(d.box, d.retrying[rid], now, id);
    }
  }

  lemma SilentEffects(d: Desk, step: Step, id: string)
    requires DeskInv(d) && !step.Finish? && !step.CommitBatch?
    ensures DeskInv(Exec(d, step)) && EffectsAdd(d, step, id)
  {
    match step
    case Keep(i, e, now) => KeepOk(d, i, e, now);
    case SetAlloc(aid, alloc) => SetAllocOk(d.box, aid, alloc);
    case _ =>
  }

  lemma StepEffects(d: Desk, step: Step, id: string)
    requires DeskInv(d)
    ensures DeskInv(Exec(d, step))
    ensures EffectsAdd(d, step, id)
  {
    match step
    case Finish(i, now) => FinishEffects(d, i, now, id);
    case CommitBatch(rid, now) => CommitEffects(d, rid, now, id);
    case _ => SilentEffects(d, step, id);
  }

  /** No step of the run up to k overtakes the event. */
  ghost predicate NeverOvertaken(steps: seq<Step>, k: nat, id: string)
    requires k <= |steps|
  {
    forall n | 0 <= n < k :: !Overtaken(Run(Start, steps[..n]), steps[n], id)
  }

  lemma {:induction false} PrefixEffects(steps: seq<Step>, k: nat, id: string)
    requires k <= |steps|
    ensures DeskInv(Run(Start, steps[..k]))
    ensures Run(Start, steps[..k]).box.effects[id] <= 1 <==> NeverOvertaken(steps, k, id)
  {
    if k == 0 {
      assert steps[..0] == [];
      forall i ensures EventOk(Empty, i) {}
    } else {
      var d := Run(Start, steps[..k - 1]);
      PrefixEffects(steps, k - 1, id);
      StepEffects(d, steps[k - 1], id);
      FoldLast(Exec, Start, steps, k - 1);
      assert EventOk(d.box, id);
      assert NeverOvertaken(steps, k, id) <==> NeverOvertaken(steps, k - 1, id) && !Overtaken(d, steps[k - 1], id);
    }
  }

  /** Over any interleaving an event reaches its allocation at most once if and only if
      no commit applied it after another had processed it. */
  lemma AppliedOnceIffNotOvertaken(steps: seq<Step>, id: string)
    ensures Run(Start, steps).box.effects[id] <= 1
       <==> forall n | 0 <= n < |steps| :: !Overtaken(Run(Start, steps[..n]), steps[n], id)
  {
    PrefixEffects(steps, |steps|, id);
    assert steps[..|steps|] == steps;
  }

  // ── requests that do not overlap ──

  /** The requests that took the event for pending. */
  predicate Takes(d: Desk, rid: nat, id: string) {
    rid in d.retrying && id in d.retrying[rid]
  }

  /** At most one of them is under way. */
  ghost predicate Alone(d: Desk, id: string) {
    && (id in d.delivering ==> forall rid :: !Takes(d, rid, id))
    && (forall i, j | Takes(d, i, id) && Takes(d, j, id) :: i == j)
  }

  /** At every moment of the run. */
  ghost predicate Serial(d: Desk, steps: seq<Step>, id: string)
    decreases |steps|
  {
    Alone(d, id) && (steps == [] || Serial(Exec(d, steps[0]), steps[1..], id))
  }

  /** Whoever took the event for pending is still right. */
  ghost predicate StillPending(d: Desk, id: string) {
    id in d.delivering || (exists rid :: Takes(d, rid, id)) ==> Pending(d.box, id)
  }

  lemma FinishAlone(d: Desk, i: string, now: int, id: string)
    requires DeskInv(d) && Alone(d, id) && StillPending(d, id)
    ensures StillPending(DoFinish(d, i, now), id)
  {
    var q := DoFinish(d, i, now);
    if i in d.delivering && i != id {
      OthersWait(d.box, i, now);
    }
    if rid :| Takes(q, rid, id) {
      assert Takes(d, rid, id);
    }
  }

  lemma CommitAlone(d: Desk, r: nat, now: int, id: string)
    requires DeskInv(d) && Alone(d, id) && StillPending(d, id)
    ensures StillPending(DoCommitBatch(d, r, now), id)
  {
    var q := DoCommitBatch(d, r, now);
    if q != d && (id in q.delivering || exists rid :: Takes(q, rid, id)) {
      if rid :| Takes(q, rid, id) {
        assert Takes(d, rid, id) && rid != r;
      }
      assert !Takes(d, r, id);
      if ApplyAll(d.box, d.retrying[r], now).Some? {
        ApplyAllLeaves(d.box, d.retrying[r], now, id);
      }
    }
  }

  lemma StepAlone(d: Desk, step: Step, id: string)
    requires DeskInv(d) && Alone(d, id) && StillPending(d, id)
    ensures StillPending(Exec(d, step), id) && !Overtaken(d, step, id)
  {
    match step
    case Finish(i, now) => FinishAlone(d, i, now, id);
    case CommitBatch(r, now) =>
      CommitAlone(d, r, now, id);
      assert r in d.retrying && id in d.retrying[r] ==> Takes(d, r, id);
    case ReadBatch(r, batch, limit) => ReadAlone(d, r, batch, limit, id);
    case _ =>
      if rid :| Takes(Exec(d, step), rid, id) {
        assert Takes(d, rid, id);
      }
  }

  lemma ReadAlone(d: Desk, r: nat, batch: seq<string>, limit: nat, id: string)
    requires StillPending(d, id)
    ensures StillPending(Exec(d, ReadBatch(r, batch, limit)), id)
  {
    var q := Exec(d, ReadBatch(r, batch, limit));
    if rid :| Takes(q, rid, id) {
      if rid in d.retrying {
        assert Takes(d, rid, id);
      } else {
        var i :| 0 <= i < |batch| && batch[i] == id;
        assert Pending(d.box, batch[i]);
      }
    }
  }

  lemma {:induction false} SerialEffects(d: Desk, steps: seq<Step>, id: string)
    requires DeskInv(d) && StillPending(d, id) && Serial(d, steps, id) && d.box.effects[id] <= 1
    ensures Run(d, steps).box.effects[id] <= 1
    decreases |steps|
  {
    if steps != [] {
      assert EventOk(d.box, id);
      StepAlone(d, steps[0], id);
      StepEffects(d, steps[0], id);
      SerialEffects(Exec(d, steps[0]), steps[1..], id);
    }
  }

  /** If the requests on an event never overlap, whatever those on others do, it reaches
      its allocation at most once. */
  lemma SerialAppliesOnce(steps: seq<Step>, id: string)
    requires Serial(Start, steps, id)
    ensures Run(Start, steps).box.effects[id] <= 1
  {
    forall i ensures EventOk(Empty, i) {}
    SerialEffects(Start, steps, id);
  }

  /** A delivery served alone is a run of these steps. */
  lemma DeliveryIsARun(box: Inbox, id: string, e: Event, now: int, dies: bool)
    ensures Run(Desk(box, {}, map[]), [Keep(id, e, now), if dies then Die(id) else Finish(id, now)]).box
         == Receive(box, id, e, now, dies)
  {
    FoldTwo(Exec, Desk(box, {}, map[]), Keep(id, e, now), if dies then Die(id) else Finish(id, now));
  }

  /** And a retry served alone. */
  lemma RetryIsARun(box: Inbox, batch: seq<string>, limit: nat, now: int)
    requires IsBatch(box, batch, limit)
    ensures Run(Desk(box, {}, map[]), [ReadBatch(0, batch, limit), CommitBatch(0, now)]).box == Retry(box, batch, now)
  {
    FoldTwo(Exec, Desk(box, {}, map[]), ReadBatch(0, batch, limit), CommitBatch(0, now));
  }

  // ── two runs from the beginning ──

  const LIVE := Alloc("ACTIVE", None, None, None, None)

  function Termination(status: string): Event {
    Event(TERMINATED, Some(1), Some(status), None, None, None, None, 0, None, None)
  }

  /** The delivery kept, and the retry that listed it. */
  function Listed(): Desk {
    Desk(Inbox(map["e" := Termination(CANCELLED)], map[1 := LIVE], multiset{}), {"e"}, map[0 := ["e"]])
  }

  lemma KeptAndListed()
    ensures var kept := Exec(Exec(Start, SetAlloc(1, LIVE)), Keep("e", Termination(CANCELLED), 0));
      Exec(kept, ReadBatch(0, ["e"], 1)) == Listed()
  {
    var kept := Listed().(retrying := map[]);
    assert Exec(Exec(Start, SetAlloc(1, LIVE)), Keep("e", Termination(CANCELLED), 0)) == kept;
    OnePending(kept.box);
  }

  lemma BothApply()
    ensures Exec(Exec(Listed(), CommitBatch(0, 0)), Finish("e", 0)).box.effects["e"] == 2
  {
    RetryOfOne(Listed().box);
  }

  /** A retry between the two commits of a delivery applies its event twice. */
  lemma RetryInBetween()
    ensures Run(Start, [SetAlloc(1, LIVE), Keep("e", Termination(CANCELLED), 0), ReadBatch(0, ["e"], 1),
                        CommitBatch(0, 0), Finish("e", 0)]).box.effects["e"] == 2
  {
    FoldFive(Exec, Start, SetAlloc(1, LIVE), Keep("e", Termination(CANCELLED), 0), ReadBatch(0, ["e"], 1),
             CommitBatch(0, 0), Finish("e", 0));
    KeptAndListed();
    BothApply();
  }

  lemma OnePending(box: Inbox)
    requires box.events == map["e" := Termination(CANCELLED)]
    ensures IsBatch(box, ["e"], 1)
  {
    assert Pending(box, "e");
  }

  lemma RetryOfOne(box: Inbox)
    requires "e" in box.events && box.events["e"] == Termination(CANCELLED) && 1 in box.allocs
    ensures Retry(box, ["e"], 0) == Apply(box, "e", 0).0
  {
    assert ["e"][..0] == [];
    assert ApplyAll(box, [], 0) == Some((box, 0));
  }

  /** An event whose status the table refuses, and one that could be applied. */
  function Poisoned(): Inbox {
    Inbox(map["bad" := Termination("BOGUS"), "good" := Termination(CANCELLED).(receivedAt := 1)], map[1 := LIVE],
          multiset{})
  }

  lemma PoisonedIsReached()
    ensures ServeAll(Empty, [Import(1, LIVE), Deliver("bad", Termination("BOGUS"), 0, false),
                             Deliver("good", Termination(CANCELLED), 1, true)]) == Poisoned()
  {
    var a, b := Import(1, LIVE), Deliver("bad", Termination("BOGUS"), 0, false);
    var c := Deliver("good", Termination(CANCELLED), 1, true);
    var one := Inbox(map[], map[1 := LIVE], multiset{});
    var two := Inbox(map["bad" := Termination("BOGUS")], map[1 := LIVE], multiset{});
    assert [a, b, c][1..] == [b, c] && [b, c][1..] == [c] && [c][1..] == [];
    assert Serve(Empty, a) == one && Serve(one, b) == two && Serve(two, c) == Poisoned();
    assert ServeAll(Empty, [a, b, c]) == ServeAll(one, [b, c]) == ServeAll(two, [c]) == ServeAll(Poisoned(), []);
  }

  /** A retry over both leaves both: the good one is never caught up. */
  lemma {:induction false} OneBadEventStopsTheRest()
    ensures ServeAll(Empty, [Import(1, LIVE), Deliver("bad", Termination("BOGUS"), 0, false),
                             Deliver("good", Termination(CANCELLED), 1, true)]) == Poisoned()
    ensures var box := Poisoned();
      && IsBatch(box, ["bad", "good"], 2) && Retry(box, ["bad", "good"], 2) == box && !CaughtUp(box)
      && Reaches(box, box.events["good"]) && IsStatus(StatusOf(box.events["good"]))
  {
    PoisonedIsReached();
    var box := Poisoned();
    assert Pending(box, "bad") && Pending(box, "good");
    assert ["bad", "good"][0] == "bad" && ["bad", "good"][1] == "good";
    BatchGoesThroughIff(box, ["bad", "good"], 2);
    assert Refused(box, box.events["bad"]);
    assert !AllStorable(box, ["bad", "good"]);
  }
}
