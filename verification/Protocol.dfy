/** `updateImplementations` as a state machine over its persistent effects: the current
    file, the tmp file, the queue file and the chain. A process may die between any two. */
module Protocol {
  import opened Wrappers
  import opened ContractTypes
  import opened Deployment

  /** What the resume prompt yields: a confirm prompt gives a Boolean, or nothing when aborted. */
  datatype Answer = Confirm(value: bool) | Text(text: string) | Aborted

  /** The source compares the answer with the text 'Yes'. */
  predicate Accepted(a: Answer) { a == Text("Yes") }

  /** Where a running process stands: at the loop head, after the transaction, after the
      tmp write (each for the first name of `todo`), or after the commit. */
  datatype Pc = Head | Landed | Recorded | Committed

  /** The process's own copies of the tmp data and of the queue, and the names still to visit. */
  datatype Process = Process(pc: Pc, data: Deployments, queue: Queue, todo: seq<ContractName>)

  datatype System = System(
    current: Deployments,
    tmp: Option<Deployments>,
    queue: Queue,
    chain: Chain,
    proc: Option<Process>)

  datatype Step =
    /** A new run, with the two prompt answers, and the order the sort produced. */
    | Start(atVerify: Answer, atLoad: Answer, signerIsOwner: bool, order: seq<ContractName>)
    /** The running process's next effect; a transaction may be refused. */
    | Advance(accepted: bool)
    /** The process is killed. */
    | Crash
    /** `deployLogic` writes one queue entry. */
    | Enqueue(name: ContractName, update: QueuedUpdate)

  predicate NoDuplicates(names: seq<ContractName>) {
    forall i, j :: 0 <= i < j < |names| ==> names[i] != names[j]
  }

  /** The sort's comparator is not consistent, so any arrangement of the keys may come out. */
  predicate IsOrder(order: seq<ContractName>, keys: set<ContractName>) {
    NoDuplicates(order) && (forall n :: n in order ==> n in keys) && (forall n :: n in keys ==> n in order)
  }

  function DataInForce(s: System): Deployments { InForce(s.current, s.tmp) }

  ghost function StartRun(s: System, atVerify: Answer, atLoad: Answer, signerIsOwner: bool,
                          order: seq<ContractName>): System
    requires s.proc.None?
  {
    if s.tmp.Some? && !Accepted(atVerify) then s
    else if Verify(s.current, s.tmp, s.chain) != Verified(true) then s
    else if s.tmp.Some? && !Accepted(atLoad) then s
    else
      var loaded := s.(tmp := Some(DataInForce(s)));
      if !signerIsOwner || s.queue == map[] then loaded
      else loaded.(proc := Some(Process(Head, DataInForce(s), s.queue, order)))
  }

  function Die(s: System): System { s.(proc := None) }

  function Progress(s: System, p: Process, accepted: bool): System
    requires s.proc == Some(p)
  {
    if p.pc == Committed then
      s.(tmp := None, proc := None)
    else if p.todo == [] then
      s.(current := p.data, proc := Some(p.(pc := Committed)))
    else
      var name, rest := p.todo[0], p.todo[1..];
      if name !in p.data.contracts then s.(proc := Some(p.(todo := rest)))
      else if name !in p.queue then Die(s)
      else
        var u := p.queue[name];
        match p.pc
        case Head =>
          var tx := TxFor(name, u, p.data);
          if tx.None? || !accepted then Die(s)
          else s.(chain := Execute(s.chain, tx.value), proc := Some(p.(pc := Landed)))
        case Landed =>
          var c := p.data.contracts;
          var data := p.data.(contracts := c[name := NewRecord(c[name], u)]);
          s.(tmp := Some(data), proc := Some(p.(pc := Recorded, data := data)))
        case Recorded =>
          var queue := p.queue - {name};
          s.(queue := queue, proc := Some(Process(Head, p.data, queue, rest)))
  }

  /** One step. A step that the situation does not allow changes nothing. */
  ghost function Next(s: System, step: Step): System {
    match step
    case Start(atVerify, atLoad, signerIsOwner, order) =>
      if s.proc.None? && IsOrder(order, s.queue.Keys)
      then StartRun(s, atVerify, atLoad, signerIsOwner, order) else s
    case Advance(accepted) => if s.proc.Some? then Progress(s, s.proc.value, accepted) else s
    case Crash => Die(s)
    case Enqueue(name, u) => if s.proc.None? then s.(queue := s.queue[name := u]) else s
  }

  /** A history: any sequence of steps. */
  ghost function Exec(s: System, steps: seq<Step>): System {
    if steps == [] then s else Next(Exec(s, steps[..|steps| - 1]), steps[|steps| - 1])
  }

  predicate NoDeploy(steps: seq<Step>) { forall i :: 0 <= i < |steps| ==> !steps[i].Enqueue? }

  lemma ExecSnoc(s: System, steps: seq<Step>, step: Step)
    ensures Exec(s, steps + [step]) == Next(Exec(s, steps), step)
  {
  }

  lemma {:induction false} ExecAppend(s: System, a: seq<Step>, b: seq<Step>)
    ensures Exec(s, a + b) == Exec(Exec(s, a), b)
    decreases |b|
  {
    if b == [] {
      assert a + b == a;
    } else {
      var init := b[..|b| - 1];
      assert a + b == (a + init) + [b[|b| - 1]];
      ExecSnoc(s, a + init, b[|b| - 1]);
      ExecAppend(s, a, init);
    }
  }

  // ---------------------------------------------------------------- safety

  /** The inductive invariant: while a process runs, files mirror its memory, and the record
      in force agrees with the chain except for the contract whose upgrade has just landed. */
  ghost predicate Safe(s: System) {
    && DistinctSlots(s.current.contracts)
    && (s.tmp.Some? ==> SameLayout(s.tmp.value, s.current))
    && match s.proc
       case None => AgreeButOne(DataInForce(s), s.chain)
       case Some(p) =>
         && s.tmp == Some(p.data) && p.queue == s.queue
         && NoDuplicates(p.todo) && (forall n :: n in p.todo ==> n in p.queue)
         && AgreeExcept(p.data, s.chain, InFlight(p))
         && match p.pc
            case Head => true
            case Landed =>
              && p.todo != [] && p.todo[0] in p.data.contracts
              && var slot := SlotOf(p.todo[0], p.data.contracts);
                 slot.Some? && s.chain.Read(slot.value) == p.queue[p.todo[0]].address
            case Recorded => p.todo != [] && p.todo[0] in p.data.contracts
            case Committed => p.todo == [] && s.current == p.data
  }

  ghost predicate AgreeButOne(d: Deployments, chain: Chain) {
    exists w :: AgreeExcept(d, chain, w)
  }

  function InFlight(p: Process): Option<ContractName> {
    if p.pc == Landed && p.todo != [] then Some(p.todo[0]) else None
  }

  lemma SafeLanding(s: System, p: Process)
    requires Safe(s) && s.proc == Some(p) && p.pc == Head && p.todo != []
    requires p.todo[0] in p.data.contracts && TxFor(p.todo[0], p.queue[p.todo[0]], p.data).Some?
    ensures Safe(Progress(s, p, true))
  {
    var name := p.todo[0];
    UpgradeWritesOwnSlot(name, p.queue[name], p.data, s.chain);
    var s' := Progress(s, p, true);
    forall n | n in p.data.contracts && n != name
      ensures Agrees(n, p.data, s'.chain)
    {
      assert Agrees(n, p.data, s.chain);
      SameSlots(s.current, p.data, n);
      SameSlots(s.current, p.data, name);
    }
  }

  lemma SafeRecording(s: System, p: Process)
    requires Safe(s) && s.proc == Some(p) && p.pc == Landed
    ensures Safe(Progress(s, p, true))
  {
  }

  lemma SafeStart(s: System, atVerify: Answer, atLoad: Answer, signerIsOwner: bool,
                  order: seq<ContractName>)
    requires Safe(s) && s.proc.None? && IsOrder(order, s.queue.Keys)
    ensures Safe(StartRun(s, atVerify, atLoad, signerIsOwner, order))
  {
    var s' := StartRun(s, atVerify, atLoad, signerIsOwner, order);
    if s' != s {
      VerifiedIff(s.current, s.tmp, s.chain);
      assert AgreeExcept(DataInForce(s), s.chain, None);
      assert DataInForce(s') == DataInForce(s);
    }
  }

  lemma SafeEnd(s: System)
    requires Safe(s)
    ensures Safe(Die(s))
  {
  }

  lemma SafeSkip(s: System, p: Process, accepted: bool)
    requires Safe(s) && s.proc == Some(p)
    requires p.pc.Head? && p.todo != [] && p.todo[0] !in p.data.contracts
    ensures Safe(Progress(s, p, accepted))
  {
  }

  lemma SafeDequeue(s: System, p: Process, accepted: bool)
    requires Safe(s) && s.proc == Some(p) && p.pc.Recorded?
    ensures Safe(Progress(s, p, accepted))
  {
  }

  lemma SafeCommit(s: System, p: Process, accepted: bool)
    requires Safe(s) && s.proc == Some(p) && p.pc.Head? && p.todo == []
    ensures Safe(Progress(s, p, accepted))
  {
    forall n | n in p.data.contracts
      ensures SlotOf(n, p.data.contracts) == SlotOf(n, s.current.contracts)
    {
      SameSlots(p.data, s.current, n);
    }
  }

  lemma SafeUnlink(s: System, p: Process, accepted: bool)
    requires Safe(s) && s.proc == Some(p) && p.pc.Committed?
    ensures Safe(Progress(s, p, accepted))
  {
  }

  lemma SafeStep(s: System, step: Step)
    requires Safe(s)
    ensures Safe(Next(s, step))
  {
    SafeEnd(s);
    match step
    case Start(atVerify, atLoad, signerIsOwner, order) =>
      if s.proc.None? && IsOrder(order, s.queue.Keys) {
        SafeStart(s, atVerify, atLoad, signerIsOwner, order);
      }
    case Advance(accepted) =>
      if s.proc.Some? {
        var p := s.proc.value;
        if p.pc == Landed {
          SafeRecording(s, p);
        } else if p.pc == Recorded {
          SafeDequeue(s, p, accepted);
        } else if p.pc == Committed {
          SafeUnlink(s, p, accepted);
        } else if p.todo == [] {
          SafeCommit(s, p, accepted);
        } else if p.todo[0] !in p.data.contracts {
          SafeSkip(s, p, accepted);
        } else if TxFor(p.todo[0], p.queue[p.todo[0]], p.data).Some? && accepted {
          SafeLanding(s, p);
        }
      }
    case Crash =>
    case Enqueue(_, _) =>
  }

  lemma {:induction false} SafeForever(s: System, steps: seq<Step>)
    requires Safe(s)
    ensures Safe(Exec(s, steps))
    decreases |steps|
  {
    if steps == [] {
    } else {
      SafeForever(s, steps[..|steps| - 1]);
      SafeStep(Exec(s, steps[..|steps| - 1]), steps[|steps| - 1]);
    }
  }

  lemma LayoutStep(s: System, step: Step)
    requires Safe(s)
    ensures var t := Next(s, step);
            SameLayout(t.current, s.current) && t.chain == s.chain.(impls := t.chain.impls)
  {
    hide TxFor, AgreeExcept, DistinctSlots, SlotOf;
  }

  /** Keys, proxies, admins, owners and code never change. */
  lemma {:induction false} LayoutForever(b: System, steps: seq<Step>)
    requires Safe(b)
    ensures var s := Exec(b, steps);
      && Safe(s) && SameLayout(s.current, b.current) && SameLayout(DataInForce(s), b.current)
      && s.chain == b.chain.(impls := s.chain.impls)
    decreases |steps|
  {
    if steps == [] {
    } else {
      var init := steps[..|steps| - 1];
      LayoutForever(b, init);
      SafeStep(Exec(b, init), steps[|steps| - 1]);
      LayoutStep(Exec(b, init), steps[|steps| - 1]);
    }
  }

  /** No process, no tmp file, and every record agrees with the chain. */
  ghost predicate Rested(s: System) {
    && s.proc.None? && s.tmp.None?
    && DistinctSlots(s.current.contracts)
    && AgreeExcept(s.current, s.chain, None)
  }

  /** The contracts whose record in force is not what the chain runs. */
  ghost function Mismatched(s: System): set<ContractName> {
    set n | n in DataInForce(s).contracts && !Agrees(n, DataInForce(s), s.chain)
  }

  /** After `k` steps the transaction for `name` had landed and its tmp write had not
      happened; then the process was killed, and since then no run has done anything. */
  ghost predicate LandedThenCrashed(s: System, steps: seq<Step>, name: ContractName, k: nat) {
    && k < |steps| && steps[k].Crash?
    && var at, r := Exec(s, steps[..k]), Exec(s, steps);
       && at.proc.Some? && InFlight(at.proc.value) == Some(name)
       && r == at.(proc := None, queue := r.queue)
       && at.queue.Keys <= r.queue.Keys && (NoDeploy(steps) ==> r.queue == at.queue)
  }

  /** While no process runs, a mismatch is the trace of a crash right after a transaction. */
  lemma {:induction false} MismatchOrigin(s: System, steps: seq<Step>, name: ContractName) returns (k: nat)
    requires Rested(s) && Exec(s, steps).proc.None? && name in Mismatched(Exec(s, steps))
    ensures LandedThenCrashed(s, steps, name, k)
    decreases |steps|
  {
    if steps == [] {
      assert false;
    } else {
      var n := |steps| - 1;
      var init, last := steps[..n], steps[n];
      var before := Exec(s, init);
      RestedSafe(s);
      SafeForever(s, init);
      MismatchStep(before, last, name);
      if before.proc.Some? {
        k := n;
      } else {
        k := MismatchOrigin(s, init, name);
        assert steps[..k] == init[..k];
      }
    }
  }

  /** Only a crash after a landed transaction leaves a mismatch, and only deployments go on
      while there is one. */
  lemma MismatchStep(s: System, step: Step, name: ContractName)
    requires Safe(s) && Next(s, step).proc.None? && name in Mismatched(Next(s, step))
    ensures name in Mismatched(s)
    ensures s.proc.Some? ==> step.Crash? && InFlight(s.proc.value) == Some(name)
    ensures s.proc.None? ==> Next(s, step) == s.(queue := Next(s, step).queue)
    ensures s.queue.Keys <= Next(s, step).queue.Keys && (!step.Enqueue? ==> Next(s, step).queue == s.queue)
  {
    var r := Next(s, step);
    if s.proc.None? {
      VerifiedIff(s.current, s.tmp, s.chain);
      assert !AgreeExcept(DataInForce(r), r.chain, None);
    } else {
      EndWithMismatch(s, step, name);
    }
  }

  lemma EndWithMismatch(s: System, step: Step, name: ContractName)
    requires Safe(s) && s.proc.Some? && Next(s, step).proc.None? && name in Mismatched(Next(s, step))
    ensures step.Crash? && InFlight(s.proc.value) == Some(name) && name in Mismatched(s)
  {
    var p := s.proc.value;
    UnlinkMatches(s, step);
    assert DataInForce(Next(s, step)) == p.data;
    assert !Agrees(name, p.data, s.chain);
  }

  lemma UnlinkMatches(s: System, step: Step)
    requires Safe(s) && s.proc.Some?
    ensures step.Advance? && s.proc.value.pc == Committed ==> Mismatched(Next(s, step)) == {}
  {
    var p := s.proc.value;
    if step.Advance? && p.pc == Committed {
      assert DataInForce(Next(s, step)) == p.data && Next(s, step).chain == s.chain;
      assert forall n :: n in p.data.contracts ==> Agrees(n, p.data, s.chain);
    }
  }

  lemma RestedSafe(s: System)
    requires Rested(s)
    ensures Safe(s)
  {
    assert AgreeExcept(DataInForce(s), s.chain, None);
  }

  /** The contract is still queued, and the chain runs `address` for it. */
  ghost predicate AwaitsRecord(s: System, name: ContractName)
    requires name in DataInForce(s).contracts
  {
    && name in s.queue
    && var slot := SlotOf(name, DataInForce(s).contracts);
       slot.Some? && s.chain.Read(slot.value) == s.queue[name].address
  }

  /** After any history of runs, crashes, refused transactions and deployments, at most one
      record in force disagrees with the chain: the one in flight of the running process, or
      of the one that was killed between that contract's transaction and its tmp write. It is
      still queued, under the very address the chain runs unless it was deployed anew since.
      And while a mismatch waits, every further run stops before its first effect, whatever is
      answered and however the queue is sorted. */
  lemma AtMostOneMismatch(s: System, steps: seq<Step>)
    requires Rested(s)
    ensures var r := Exec(s, steps);
      && (forall n, m :: n in Mismatched(r) && m in Mismatched(r) ==> n == m)
      && (r.proc.Some? ==> forall n :: n in Mismatched(r) ==> Some(n) == InFlight(r.proc.value))
      && (r.proc.None? ==> forall n :: n in Mismatched(r) ==> exists k :: LandedThenCrashed(s, steps, n, k))
      && (forall n :: n in Mismatched(r) ==> n in r.queue && (NoDeploy(steps) ==> AwaitsRecord(r, n)))
      && (r.proc.None? && Mismatched(r) != {} ==>
            forall atVerify, atLoad, signerIsOwner, order ::
              Next(r, Start(atVerify, atLoad, signerIsOwner, order)) == r)
  {
    RestedSafe(s);
    SafeForever(s, steps);
    var r := Exec(s, steps);
    VerifiedIff(r.current, r.tmp, r.chain);
    forall n | n in Mismatched(r)
      ensures r.proc.None? ==> exists k :: LandedThenCrashed(s, steps, n, k)
      ensures n in r.queue && (NoDeploy(steps) ==> AwaitsRecord(r, n))
    {
      if r.proc.None? {
        var k := MismatchOrigin(s, steps, n);
        SafeForever(s, steps[..k]);
        InFlightAwaits(Exec(s, steps[..k]), n);
      } else {
        InFlightAwaits(r, n);
      }
    }
    if r.proc.None? && Mismatched(r) != {} {
      var n :| n in Mismatched(r);
      assert !AgreeExcept(DataInForce(r), r.chain, None);
    }
  }

  lemma InFlightAwaits(s: System, name: ContractName)
    requires Safe(s) && s.proc.Some? && InFlight(s.proc.value) == Some(name)
    ensures name in DataInForce(s).contracts && AwaitsRecord(s, name)
  {
  }

  /** With any answer but the text 'Yes', so with all that a confirm prompt can give, a tmp
      file ends every run at once: the system stays exactly as it is for as long as nothing is
      deployed. */
  lemma {:induction false} ConfirmNeverResumes(s: System, steps: seq<Step>)
    requires s.tmp.Some? && s.proc.None? && NoDeploy(steps)
    requires forall i :: 0 <= i < |steps| && steps[i].Start? ==> steps[i].atVerify != Text("Yes")
    ensures Exec(s, steps) == s
    decreases |steps|
  {
    if steps == [] {
    } else {
      ConfirmNeverResumes(s, steps[..|steps| - 1]);
    }
  }
}
