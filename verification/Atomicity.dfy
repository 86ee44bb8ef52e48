/** The upgrade protocol is all or nothing: whatever the order of the queue, wherever
    processes die and however often they are resumed, once no tmp file is left either
    nothing has changed or the whole queue has been applied. */
module Atomicity {
  import opened Wrappers
  import opened ContractTypes
  import opened Deployment
  import opened Protocol

  /** The queued names that the record knows. */
  function Recognised(b: System): set<ContractName> {
    b.queue.Keys * b.current.contracts.Keys
  }

  function FinalRecord(b: System, name: ContractName): Record
    requires name in b.current.contracts
  {
    var prior := b.current.contracts[name];
    if name in b.queue then NewRecord(prior, b.queue[name]) else prior
  }

  /** What a complete update leaves in the current file. */
  function FinalDeployments(b: System): Deployments {
    b.current.(contracts := map n | n in b.current.contracts :: FinalRecord(b, n))
  }

  /** What it leaves in the queue: the entries it did not recognise. */
  function FinalQueue(b: System): Queue { b.queue - b.current.contracts.Keys }

  /** The slots that a complete update writes. */
  ghost predicate Target(b: System, slot: Slot) {
    exists n :: n in Recognised(b) && SlotOf(n, b.current.contracts) == Some(slot)
  }

  ghost predicate SameElsewhere(b: System, chain: Chain) {
    && chain == b.chain.(impls := chain.impls)
    && forall slot :: !Target(b, slot) ==> chain.Read(slot) == b.chain.Read(slot)
  }

  ghost predicate Untouched(b: System, s: System) {
    && s.proc.None? && s.tmp.None?
    && s.current == b.current && s.queue == b.queue
    && s.chain == b.chain.(impls := s.chain.impls)
    && forall slot :: s.chain.Read(slot) == b.chain.Read(slot)
  }

  /** Every recognised update is on record and on the chain, and nothing else has changed. */
  ghost predicate Completed(b: System, s: System) {
    && s.proc.None? && s.tmp.None?
    && s.current == FinalDeployments(b) && SameElsewhere(b, s.chain)
    && forall n :: n in Recognised(b) ==>
         && n !in s.queue && SlotOf(n, b.current.contracts).Some?
         && s.chain.Read(SlotOf(n, b.current.contracts).value) == b.queue[n].address
  }

  ghost predicate Finished(b: System, s: System) { Completed(b, s) && s.queue == FinalQueue(b) }

  /** Each record is still the old one, or already the final one. */
  ghost predicate OldOrFinal(b: System, d: Deployments) {
    && SameLayout(d, b.current)
    && forall n :: n in b.current.contracts ==>
         d.contracts[n] == b.current.contracts[n] || d.contracts[n] == FinalRecord(b, n)
  }

  /** The queue only shrinks, never by an unrecognised entry, and by a recognised one only
      once its final record is written. */
  ghost predicate Dequeued(b: System, d: Deployments, queue: Queue)
    requires OldOrFinal(b, d)
  {
    && (forall n :: n in queue ==> n in b.queue && queue[n] == b.queue[n])
    && (forall n :: n in b.queue && n !in b.current.contracts ==> n in queue)
    && (forall n :: n in Recognised(b) && n !in queue ==> d.contracts[n] == FinalRecord(b, n))
  }

  /** Every recognised entry still queued is still to visit, and a contract whose tmp write
      is done has its final record. */
  ghost predicate ToDo(b: System, p: Process, queue: Queue) {
    && (forall n :: n in Recognised(b) && n in queue ==> n in p.todo)
    && (p.pc == Recorded ==>
          && p.todo != [] && p.todo[0] in p.data.contracts && p.todo[0] in b.current.contracts
          && p.data.contracts[p.todo[0]] == FinalRecord(b, p.todo[0]))
  }

  /** How far the system has come from the base state `b`, as an invariant. */
  ghost predicate Between(b: System, s: System) {
    && (s.current == b.current || (s.current == FinalDeployments(b) && s.queue == FinalQueue(b)))
    && OldOrFinal(b, DataInForce(s)) && Dequeued(b, DataInForce(s), s.queue)
    && SameElsewhere(b, s.chain)
    && (s.tmp.None? ==> Untouched(b, s) || Finished(b, s))
    && (s.proc.Some? ==> ToDo(b, s.proc.value, s.queue))
  }

  /** Once every recognised entry has left the queue, the data in force is final. */
  lemma AllDequeued(b: System, s: System)
    requires Between(b, s) && forall n :: n in Recognised(b) ==> n !in s.queue
    ensures DataInForce(s) == FinalDeployments(b) && s.queue == FinalQueue(b)
  {
  }

  /** What a running process has in common with the base state. */
  lemma RunningOn(b: System, s: System, p: Process)
    requires Safe(s) && Between(b, s) && s.proc == Some(p)
    ensures s.tmp == Some(p.data) && p.queue == s.queue && SameLayout(p.data, b.current)
    ensures p.todo != [] ==> p.todo[0] in b.queue && p.queue[p.todo[0]] == b.queue[p.todo[0]]
    ensures p.todo != [] && p.todo[0] in b.current.contracts ==> s.current == b.current
  {
  }

  lemma BetweenLanding(b: System, s: System, p: Process)
    requires Safe(s) && Between(b, s) && s.proc == Some(p) && p.pc == Head && p.todo != []
    requires p.todo[0] in p.data.contracts && p.todo[0] in p.queue
    requires TxFor(p.todo[0], p.queue[p.todo[0]], p.data).Some?
    ensures Between(b, Progress(s, p, true))
  {
    var name := p.todo[0];
    RunningOn(b, s, p);
    LandingElsewhere(b, s, p);
    hide Safe, OldOrFinal, Dequeued, SameElsewhere, FinalDeployments, FinalQueue, Untouched, Finished, TxFor, Execute;
    var s' := Progress(s, p, true);
    assert s' == s.(chain := s'.chain, proc := Some(p.(pc := Landed)));
  }

  /** An upgrade writes only a slot that a complete update writes. */
  lemma LandingElsewhere(b: System, s: System, p: Process)
    requires Safe(s) && SameElsewhere(b, s.chain) && SameLayout(p.data, b.current)
    requires s.proc == Some(p) && p.pc == Head && p.todo != [] && p.todo[0] in p.data.contracts
    requires p.todo[0] in p.queue && p.todo[0] in b.queue
    requires TxFor(p.todo[0], p.queue[p.todo[0]], p.data).Some?
    ensures SameElsewhere(b, Execute(s.chain, TxFor(p.todo[0], p.queue[p.todo[0]], p.data).value))
  {
    hide TxFor, Execute;
    var name := p.todo[0];
    UpgradeWritesOwnSlot(name, p.queue[name], p.data, s.chain);
    SameSlots(p.data, b.current, name);
    assert name in Recognised(b);
    assert Target(b, SlotOf(name, p.data.contracts).value);
  }

  lemma BetweenRecording(b: System, s: System, p: Process)
    requires Safe(s) && Between(b, s) && s.proc == Some(p) && p.pc == Landed
    ensures Between(b, Progress(s, p, true))
  {
    RunningOn(b, s, p);
    var name, c := p.todo[0], p.data.contracts;
    hide Safe, SameElsewhere, FinalDeployments, FinalQueue, Untouched, Finished;
    assert NewRecord(c[name], p.queue[name]) == FinalRecord(b, name);
    RecordedOne(b, p.data, s.queue, name);
  }

  lemma RecordedOne(b: System, d: Deployments, queue: Queue, name: ContractName)
    requires OldOrFinal(b, d) && Dequeued(b, d, queue) && name in b.current.contracts
    ensures var d' := d.(contracts := d.contracts[name := FinalRecord(b, name)]);
            OldOrFinal(b, d') && Dequeued(b, d', queue)
  {
  }

  lemma BetweenDequeue(b: System, s: System, p: Process)
    requires Safe(s) && Between(b, s) && s.proc == Some(p) && p.pc == Recorded
    ensures Between(b, Progress(s, p, true))
  {
    RunningOn(b, s, p);
    assert p.todo[0] in p.data.contracts;
    hide Safe, OldOrFinal, Dequeued, SameElsewhere, FinalDeployments, FinalQueue, Untouched, Finished;
    DequeuedOne(b, p.data, s.queue, p.todo[0]);
    VisitedOne(b, p, s.queue);
    hide ToDo;
    var s', queue := Progress(s, p, true), p.queue - {p.todo[0]};
    assert s' == s.(queue := queue, proc := Some(Process(Head, p.data, queue, p.todo[1..])));
  }

  lemma VisitedOne(b: System, p: Process, queue: Queue)
    requires ToDo(b, p, queue) && p.todo != [] && p.queue == queue
    ensures ToDo(b, Process(Head, p.data, queue - {p.todo[0]}, p.todo[1..]), queue - {p.todo[0]})
  {
  }

  lemma DequeuedOne(b: System, d: Deployments, queue: Queue, name: ContractName)
    requires OldOrFinal(b, d) && Dequeued(b, d, queue) && name in b.current.contracts
    requires d.contracts[name] == FinalRecord(b, name)
    ensures Dequeued(b, d, queue - {name})
  {
  }

  lemma BetweenCommit(b: System, s: System, p: Process)
    requires Safe(s) && Between(b, s) && s.proc == Some(p) && p.pc == Head && p.todo == []
    ensures Between(b, Progress(s, p, true))
  {
    AllDequeued(b, s);
  }

  lemma BetweenUnlink(b: System, s: System, p: Process)
    requires Safe(s) && Between(b, s) && s.proc == Some(p) && p.pc == Committed
    ensures Finished(b, Progress(s, p, true))
  {
    AllDequeued(b, s);
    forall n | n in Recognised(b)
      ensures SlotOf(n, b.current.contracts).Some?
      ensures s.chain.Read(SlotOf(n, b.current.contracts).value) == b.queue[n].address
    {
      SameSlots(p.data, b.current, n);
      assert Agrees(n, p.data, s.chain);
    }
  }

  lemma FinishedBetween(b: System, s: System)
    requires Finished(b, s)
    ensures Between(b, s)
  {
  }

  lemma BetweenStart(b: System, s: System, step: Step)
    requires Between(b, s) && s.proc.None? && step.Start?
    ensures Between(b, Next(s, step))
  {
  }

  lemma BetweenEnd(b: System, s: System)
    requires Safe(s) && Between(b, s)
    ensures Between(b, Die(s))
  {
  }

  lemma BetweenSkip(b: System, s: System, p: Process)
    requires Safe(s) && Between(b, s) && s.proc == Some(p) && p.pc == Head && p.todo != []
    requires p.todo[0] !in p.data.contracts
    ensures Between(b, Progress(s, p, true))
  {
  }

  lemma BetweenStep(b: System, s: System, step: Step)
    requires Safe(s) && Between(b, s) && !step.Enqueue?
    ensures Between(b, Next(s, step))
  {
    BetweenEnd(b, s);
    if s.proc.None? {
      if step.Start? {
        BetweenStart(b, s, step);
      }
    } else if step.Advance? {
      var p := s.proc.value;
      match p.pc
      case Committed =>
        BetweenUnlink(b, s, p);
        FinishedBetween(b, Progress(s, p, true));
      case Landed => BetweenRecording(b, s, p);
      case Recorded => BetweenDequeue(b, s, p);
      case Head =>
        if p.todo == [] {
          BetweenCommit(b, s, p);
        } else if p.todo[0] !in p.data.contracts {
          BetweenSkip(b, s, p);
        } else if TxFor(p.todo[0], p.queue[p.todo[0]], p.data).Some? {
          BetweenLanding(b, s, p);
        }
    }
  }

  lemma {:induction false} BetweenForever(b: System, steps: seq<Step>)
    requires Rested(b) && NoDeploy(steps)
    ensures Safe(Exec(b, steps)) && Between(b, Exec(b, steps))
    decreases |steps|
  {
    if steps == [] {
      assert AgreeExcept(DataInForce(b), b.chain, None);
    } else {
      var init := steps[..|steps| - 1];
      BetweenForever(b, init);
      SafeStep(Exec(b, init), steps[|steps| - 1]);
      BetweenStep(b, Exec(b, init), steps[|steps| - 1]);
    }
  }

  /** Whatever happened, a system without a tmp file is either exactly the base state or the
      base state with every recognised queue entry applied: records, queue and chain. */
  lemma AllOrNothing(b: System, steps: seq<Step>)
    requires Rested(b) && NoDeploy(steps)
    ensures var r := Exec(b, steps);
      r.tmp.None? ==>
        || Untouched(b, r)
        || (Finished(b, r)
            && (forall n :: n in Recognised(b) ==>
                  n in r.current.contracts && Carries(r.current.contracts[n], b.current.contracts[n].proxy, b.queue[n]))
            && (forall n :: n in b.current.contracts && n !in b.queue ==>
                  n in r.current.contracts && r.current.contracts[n] == b.current.contracts[n]))
  {
    BetweenForever(b, steps);
  }

  // ---------------------------------------------------------------- with deployments

  /** The last update that a history accepted into the queue for a name. */
  ghost function LastQueued(b: System, steps: seq<Step>, name: ContractName): Option<QueuedUpdate> {
    if steps == [] then
      if name in b.queue then Some(b.queue[name]) else None
    else
      var init, last := steps[..|steps| - 1], steps[|steps| - 1];
      if last.Enqueue? && last.name == name && Exec(b, init).proc.None? then Some(last.update)
      else LastQueued(b, init, name)
  }

  /** The last update of a contract is still queued or recorded; one never queued has the
      record it had. */
  ghost predicate Kept(b: System, last: Option<QueuedUpdate>, s: System, name: ContractName)
    requires name in b.current.contracts
  {
    && SameLayout(DataInForce(s), b.current)
    && (name in s.queue ==> last == Some(s.queue[name]))
    && (name !in s.queue ==> DataInForce(s).contracts[name] == Updated(b, last, name))
    && (s.proc.Some? && s.proc.value.pc == Recorded && s.proc.value.todo != [] && s.proc.value.todo[0] == name ==>
          DataInForce(s).contracts[name] == Updated(b, last, name))
  }

  ghost function Updated(b: System, last: Option<QueuedUpdate>, name: ContractName): Record
    requires name in b.current.contracts
  {
    match last
    case None => b.current.contracts[name]
    case Some(u) => NewRecord(b.current.contracts[name], u)
  }

  lemma KeptSame(b: System, last: Option<QueuedUpdate>, s: System, t: System, name: ContractName)
    requires name in b.current.contracts && Kept(b, last, s, name)
    requires DataInForce(t) == DataInForce(s) && t.queue == s.queue
    requires t.proc.Some? ==> t.proc.value.pc != Recorded
    ensures Kept(b, last, t, name)
  {
  }

  lemma KeptRecording(b: System, last: Option<QueuedUpdate>, s: System, p: Process, name: ContractName)
    requires name in b.current.contracts && Safe(s) && Kept(b, last, s, name)
    requires s.proc == Some(p) && p.pc == Landed
    ensures Kept(b, last, Progress(s, p, true), name)
  {
    assert p.todo[0] in p.queue;
    assert DataInForce(s) == p.data && p.queue == s.queue && p.todo[0] in p.data.contracts;
    hide Safe, SlotOf;
    var t, c, first := Progress(s, p, true), p.data.contracts, p.todo[0];
    assert DataInForce(t) == p.data.(contracts := c[first := NewRecord(c[first], p.queue[first])]);
    assert t.queue == s.queue;
  }

  lemma KeptDequeue(b: System, last: Option<QueuedUpdate>, s: System, p: Process, name: ContractName)
    requires name in b.current.contracts && Safe(s) && Kept(b, last, s, name)
    requires s.proc == Some(p) && p.pc == Recorded
    ensures Kept(b, last, Progress(s, p, true), name)
  {
    assert p.todo[0] in p.queue;
    assert DataInForce(s) == p.data && p.queue == s.queue && p.todo[0] in p.data.contracts;
    hide Safe, SlotOf;
    var t := Progress(s, p, true);
    assert DataInForce(t) == p.data && t.queue == s.queue - {p.todo[0]};
  }

  lemma KeptAdvance(b: System, last: Option<QueuedUpdate>, s: System, p: Process, accepted: bool, name: ContractName)
    requires name in b.current.contracts && Safe(s) && s.proc == Some(p) && Kept(b, last, s, name)
    ensures Kept(b, last, Progress(s, p, accepted), name)
  {
    hide Kept, TxFor, AgreeExcept, DistinctSlots;
    if p.pc == Landed {
      assert Progress(s, p, accepted) == Progress(s, p, true);
      KeptRecording(b, last, s, p, name);
    } else if p.pc == Recorded {
      assert Progress(s, p, accepted) == Progress(s, p, true);
      KeptDequeue(b, last, s, p, name);
    } else {
      KeptSame(b, last, s, Progress(s, p, accepted), name);
    }
  }

  lemma KeptEnqueue(b: System, last: Option<QueuedUpdate>, s: System, at: ContractName, u: QueuedUpdate,
                    name: ContractName)
    requires name in b.current.contracts && s.proc.None? && Kept(b, last, s, name)
    ensures Kept(b, if at == name then Some(u) else last, Next(s, Enqueue(at, u)), name)
  {
  }

  lemma KeptStep(b: System, steps: seq<Step>, step: Step, name: ContractName)
    requires name in b.current.contracts && Safe(Exec(b, steps))
    requires Kept(b, LastQueued(b, steps, name), Exec(b, steps), name)
    ensures Kept(b, LastQueued(b, steps + [step], name), Next(Exec(b, steps), step), name)
  {
    hide Kept, Safe, Progress, Verify;
    var s, last := Exec(b, steps), LastQueued(b, steps, name);
    assert (steps + [step])[..|steps|] == steps;
    if step.Enqueue? {
      if s.proc.None? {
        KeptEnqueue(b, last, s, step.name, step.update, name);
      }
    } else if step.Advance? {
      if s.proc.Some? {
        KeptAdvance(b, last, s, s.proc.value, step.accepted, name);
      }
    } else {
      QuietStep(s, step);
      if Next(s, step) != s {
        KeptSame(b, last, s, Next(s, step), name);
      }
    }
  }

  lemma QuietStep(s: System, step: Step)
    requires Safe(s) && (step.Start? || step.Crash?)
    ensures var t := Next(s, step);
      t == s || (DataInForce(t) == DataInForce(s) && t.queue == s.queue && (t.proc.Some? ==> t.proc.value.pc == Head))
  {
  }

  lemma {:induction false} KeptForever(b: System, steps: seq<Step>, name: ContractName)
    requires Rested(b) && name in b.current.contracts
    ensures Kept(b, LastQueued(b, steps, name), Exec(b, steps), name)
    decreases |steps|
  {
    if steps == [] {
    } else {
      hide Kept, Next, Safe;
      var init, last := steps[..|steps| - 1], steps[|steps| - 1];
      KeptForever(b, init, name);
      RestedSafe(b);
      SafeForever(b, init);
      assert steps == init + [last];
      KeptStep(b, init, last, name);
    }
  }

  /** No deployed update is ever lost and none is undone, over every history: runs, crashes,
      refused transactions, and deployments at any time a process is not running. A recorded
      contract's last update waits in the queue; or it has left the queue, and then it is on
      record and the chain runs it -- also a facet, though the upgrade of its sibling sets
      both. A contract never queued keeps its record. */
  lemma NothingUndone(b: System, steps: seq<Step>, name: ContractName)
    requires Rested(b) && name in b.current.contracts
    ensures var s, last := Exec(b, steps), LastQueued(b, steps, name);
      && Kept(b, last, s, name)
      && (name !in s.queue ==>
            && (last.None? ==> DataInForce(s).contracts[name] == b.current.contracts[name])
            && (last.Some? ==> Carries(DataInForce(s).contracts[name], b.current.contracts[name].proxy, last.value))
            && SlotOf(name, b.current.contracts).Some?
            && s.chain.Read(SlotOf(name, b.current.contracts).value) == DataInForce(s).contracts[name].impl)
  {
    KeptForever(b, steps, name);
    AtMostOneMismatch(b, steps);
    hide Exec, LastQueued, Mismatched, SlotOf;
    if name !in Exec(b, steps).queue {
      RunsRecord(b, Exec(b, steps), name);
    }
  }

  lemma RunsRecord(b: System, s: System, name: ContractName)
    requires SameLayout(DataInForce(s), b.current) && name in b.current.contracts && name !in Mismatched(s)
    ensures SlotOf(name, b.current.contracts).Some?
    ensures s.chain.Read(SlotOf(name, b.current.contracts).value) == DataInForce(s).contracts[name].impl
  {
    SameSlots(DataInForce(s), b.current, name);
    assert Agrees(name, DataInForce(s), s.chain);
  }

  /** A running process still has to visit every recorded contract in the queue. */
  ghost predicate VisitsAll(s: System) {
    s.proc.Some? ==>
      forall n :: n in s.queue && n in s.proc.value.data.contracts ==> n in s.proc.value.todo
  }

  lemma VisitsAllStep(s: System, step: Step)
    requires Safe(s) && VisitsAll(s)
    ensures VisitsAll(Next(s, step))
  {
    hide TxFor, Execute, AgreeExcept, DistinctSlots;
    if s.proc.Some? && s.proc.value.todo != [] {
      var todo := s.proc.value.todo;
      assert todo == [todo[0]] + todo[1..];
    }
  }

  lemma {:induction false} VisitsAllForever(b: System, steps: seq<Step>)
    requires Safe(b) && b.proc.None?
    ensures VisitsAll(Exec(b, steps))
    decreases |steps|
  {
    if steps == [] {
    } else {
      VisitsAllForever(b, steps[..|steps| - 1]);
      SafeForever(b, steps[..|steps| - 1]);
      VisitsAllStep(Exec(b, steps[..|steps| - 1]), steps[|steps| - 1]);
    }
  }

  /** Each record holds the last update accepted in the first `k` steps; later ones are not
      applied to any. */
  ghost predicate Snapshot(b: System, steps: seq<Step>, k: nat, d: Deployments) {
    && k <= |steps| && SameLayout(d, b.current)
    && forall n :: n in b.current.contracts ==>
         match LastQueued(b, steps[..k], n)
         case None => d.contracts[n] == b.current.contracts[n]
         case Some(u) => Carries(d.contracts[n], b.current.contracts[n].proxy, u)
  }

  /** A run that ends leaves a snapshot of everything accepted so far. */
  lemma EndIsSnapshot(b: System, steps: seq<Step>)
    requires Rested(b)
    requires var s := Exec(b, steps); s.proc.Some? && s.proc.value.pc == Committed
    ensures Snapshot(b, steps, |steps|, Exec(b, steps).current)
  {
    var s := Exec(b, steps);
    RestedSafe(b);
    SafeForever(b, steps);
    VisitsAllForever(b, steps);
    assert DataInForce(s) == s.current && s.proc.value.todo == [] && s.proc.value.data == s.current;
    assert steps[..|steps|] == steps;
    hide Exec, Safe, LastQueued;
    LayoutForever(b, steps);
    forall n | n in b.current.contracts
      ensures s.current.contracts[n] == Updated(b, LastQueued(b, steps, n), n)
      ensures match LastQueued(b, steps, n)
              case None => s.current.contracts[n] == b.current.contracts[n]
              case Some(u) => Carries(s.current.contracts[n], b.current.contracts[n].proxy, u)
    {
      NothingUndone(b, steps, n);
    }
  }

  /** All or nothing over every history, with deployments at any time a process is not
      running. Without a tmp file the records are those of the base state or a snapshot: for
      some point of the history, every update accepted before it is applied and none after;
      and the chain runs what the records say. */
  lemma {:induction false} SnapshotAtRest(b: System, steps: seq<Step>)
    requires Rested(b)
    ensures var r := Exec(b, steps);
      r.proc.None? && r.tmp.None? ==>
        && AgreeExcept(r.current, r.chain, None)
        && (r.current == b.current || exists k: nat :: Snapshot(b, steps, k, r.current))
    decreases |steps|
  {
    if steps == [] {
    } else {
      var n := |steps| - 1;
      var init, last := steps[..n], steps[n];
      var s, r := Exec(b, init), Exec(b, steps);
      SnapshotAtRest(b, init);
      if r.proc.None? && r.tmp.None? {
        NoMismatchAtRest(b, steps);
        RestStep(b, init, last);
        if s.proc.None? {
          if k: nat :| Snapshot(b, init, k, s.current) {
            assert steps[..k] == init[..k];
            assert Snapshot(b, steps, k, r.current);
          }
        } else {
          EndIsSnapshot(b, init);
          assert init[..n] == steps[..n];
          assert Snapshot(b, steps, n, r.current);
        }
      }
    }
  }

  lemma RestStep(b: System, init: seq<Step>, last: Step)
    requires Rested(b)
    requires var r := Next(Exec(b, init), last); r.proc.None? && r.tmp.None?
    ensures var s := Exec(b, init);
      && Next(s, last).current == s.current
      && (s.proc.None? ==> s.tmp.None?) && (s.proc.Some? ==> s.proc.value.pc == Committed)
  {
    RestedSafe(b);
    SafeForever(b, init);
    hide AgreeExcept, DistinctSlots, TxFor, Execute, SlotOf;
  }

  lemma NoMismatchAtRest(b: System, steps: seq<Step>)
    requires Rested(b) && Exec(b, steps).proc.None? && Exec(b, steps).tmp.None?
    ensures AgreeExcept(Exec(b, steps).current, Exec(b, steps).chain, None)
  {
    var r := Exec(b, steps);
    forall n | n in r.current.contracts
      ensures Agrees(n, r.current, r.chain)
    {
      if !Agrees(n, r.current, r.chain) {
        var k := MismatchOrigin(b, steps, n);
        RestedSafe(b);
        SafeForever(b, steps[..k]);
        assert false;
      }
    }
  }

  /** Two completed histories end alike, though they sort the queue differently, crash at
      different effects and resume a different number of times. */
  lemma CompletedHistoriesAgree(b: System, one: seq<Step>, two: seq<Step>)
    requires Rested(b) && NoDeploy(one) && NoDeploy(two)
    requires Exec(b, one).tmp.None? && Exec(b, two).tmp.None?
    requires Recognised(b) * (Exec(b, one).queue.Keys + Exec(b, two).queue.Keys) == {}
    ensures var r, t := Exec(b, one), Exec(b, two);
      && r.current == t.current && r.queue == t.queue && t.chain == r.chain.(impls := t.chain.impls)
      && forall slot :: r.chain.Read(slot) == t.chain.Read(slot)
  {
    AllOrNothing(b, one);
    AllOrNothing(b, two);
    var r, t := Exec(b, one), Exec(b, two);
    AtRest(b, r);
    AtRest(b, t);
    forall slot
      ensures r.chain.Read(slot) == t.chain.Read(slot)
    {
      if Target(b, slot) {
        var n :| n in Recognised(b) && SlotOf(n, b.current.contracts) == Some(slot);
        assert r.chain.Read(SlotOf(n, b.current.contracts).value) == b.queue[n].address;
      }
    }
  }

  /** With nothing left to apply, the base state itself counts as finished. */
  lemma AtRest(b: System, s: System)
    requires Untouched(b, s) || Finished(b, s)
    requires Recognised(b) * s.queue.Keys == {}
    ensures Finished(b, s)
  {
    if Untouched(b, s) {
      assert Recognised(b) == {};
      forall n | n in b.current.contracts
        ensures n !in b.queue
      {
        assert n !in Recognised(b);
      }
      assert FinalDeployments(b).contracts == b.current.contracts;
      assert FinalQueue(b) == b.queue;
    }
  }
}
