/** Liveness of the upgrade protocol: which runs end well, and which crashed runs a re-run
    can finish. */
module Resume {
  import opened Wrappers
  import opened ContractTypes
  import opened Deployment
  import opened Protocol
  import opened Atomicity

  /** The records that the upgrade of `name` reads are there. */
  predicate HasMechanism(name: ContractName, c: map<ContractName, Record>) {
    && (IsBeaconOwnedByRollup(name) || IsFacet(name) ==> Rollup in c)
    && (IsFacet(name) ==> RollupAdminFacet in c && RollupUserFacet in c)
  }

  ghost predicate AllHaveMechanisms(b: System) {
    forall n :: n in Recognised(b) ==> HasMechanism(n, b.current.contracts)
  }

  /** Advance `k` times, every transaction accepted. */
  function Advances(k: nat): (steps: seq<Step>)
    ensures NoDeploy(steps)
  {
    if k == 0 then [] else [Advance(true)] + Advances(k - 1)
  }

  ghost function Drive(s: System, k: nat): System
    decreases k
  {
    if k == 0 then s else Drive(Next(s, Advance(true)), k - 1)
  }

  ghost function ThreeMore(s: System): System {
    Next(Next(Next(s, Advance(true)), Advance(true)), Advance(true))
  }

  /** One turn of the loop on a recognised name: send, record, dequeue. */
  lemma Turn(s: System, p: Process)
    requires Safe(s) && s.proc == Some(p) && p.pc == Head && p.todo != []
    requires p.todo[0] in p.data.contracts && HasMechanism(p.todo[0], p.data.contracts)
    ensures Safe(ThreeMore(s)) && ThreeMore(s).proc.Some?
    ensures var p' := ThreeMore(s).proc.value;
            && p'.pc == Head && p'.todo == p.todo[1..] && p'.queue == s.queue - {p.todo[0]}
            && p'.data.contracts.Keys == p.data.contracts.Keys
            && ThreeMore(s).queue == p'.queue && ThreeMore(s).current == s.current
  {
    var s1 := Next(s, Advance(true));
    SafeStep(s, Advance(true));
    assert s1.proc == Some(p.(pc := Landed));
    var s2 := Next(s1, Advance(true));
    SafeStep(s1, Advance(true));
    SafeStep(s2, Advance(true));
  }

  lemma {:induction false} DriveIsExec(s: System, k: nat)
    ensures Drive(s, k) == Exec(s, Advances(k))
    decreases k
  {
    if k == 0 {
    } else {
      ExecSnoc(s, [], Advance(true));
      assert [] + [Advance(true)] == [Advance(true)];
      ExecAppend(s, [Advance(true)], Advances(k - 1));
      DriveIsExec(Next(s, Advance(true)), k - 1);
    }
  }

  lemma {:induction false} DriveIdle(s: System, k: nat)
    requires s.proc.None?
    ensures Drive(s, k) == s
    decreases k
  {
    if k == 0 {
    } else {
      DriveIdle(s, k - 1);
    }
  }

  /** At a loop head, with every recognised entry still to visit and upgradable. */
  ghost predicate Ready(s: System, todo: seq<ContractName>, c: map<ContractName, Record>) {
    && Safe(s) && s.proc.Some? && s.proc.value.pc == Head
    && s.proc.value.todo == todo && s.proc.value.data.contracts.Keys == c.Keys
    && (forall n :: n in todo && n in c ==> HasMechanism(n, c))
    && (forall n :: n in s.queue && n in c ==> n in todo)
  }

  lemma ReadyTurn(s: System, todo: seq<ContractName>, c: map<ContractName, Record>)
    requires Ready(s, todo, c) && todo != [] && todo[0] in c
    ensures Ready(ThreeMore(s), todo[1..], c)
  {
    hide Safe, ThreeMore;
    Turn(s, s.proc.value);
    assert todo == [todo[0]] + todo[1..];
  }

  lemma ReadySkip(s: System, todo: seq<ContractName>, c: map<ContractName, Record>)
    requires Ready(s, todo, c) && todo != [] && todo[0] !in c
    ensures Ready(Next(s, Advance(true)), todo[1..], c)
  {
  }

  ghost predicate AtEnd(s: System) {
    s.proc.None? && s.tmp.None? && forall n :: n in s.queue ==> n !in s.current.contracts
  }

  /** One skipped name, then the rest. */
  lemma SkipThen(s: System, todo: seq<ContractName>, c: map<ContractName, Record>, k: nat)
    returns (s': System)
    requires Ready(s, todo, c) && todo != [] && todo[0] !in c && k >= 1
    ensures Ready(s', todo[1..], c) && Drive(s, k) == Drive(s', k - 1)
  {
    ReadySkip(s, todo, c);
    s' := Next(s, Advance(true));
  }

  /** One processed name, then the rest. */
  lemma TurnThen(s: System, todo: seq<ContractName>, c: map<ContractName, Record>, k: nat)
    returns (s': System)
    requires Ready(s, todo, c) && todo != [] && todo[0] in c && k >= 3
    ensures Ready(s', todo[1..], c) && Drive(s, k) == Drive(s', k - 3)
  {
    ReadyTurn(s, todo, c);
    DriveThree(s, k);
    s' := ThreeMore(s);
  }

  lemma DriveThree(s: System, k: nat)
    requires k >= 3
    ensures Drive(s, k) == Drive(ThreeMore(s), k - 3)
  {
    var s1 := Next(s, Advance(true));
    assert Drive(s, k) == Drive(s1, k - 1);
    assert Drive(s1, k - 1) == Drive(Next(s1, Advance(true)), k - 2);
  }

  lemma DriveOut(s: System, k: nat, c: map<ContractName, Record>)
    requires Ready(s, [], c) && k >= 2
    ensures AtEnd(Drive(s, k))
  {
    var s1 := Next(s, Advance(true));
    DriveIdle(Next(s1, Advance(true)), k - 2);
  }

  /** From a loop head, accepted transactions carry the process through to the end. */
  lemma {:induction false} DriveCompletes(s: System, todo: seq<ContractName>, c: map<ContractName, Record>, k: nat)
    returns (end: System)
    requires Ready(s, todo, c) && k >= 3 * |todo| + 2
    ensures end == Drive(s, k) && AtEnd(end)
    decreases |todo|
  {
    hide *;
    if todo == [] {
      DriveOut(s, k, c);
      end := Drive(s, k);
    } else if todo[0] !in c {
      var s' := SkipThen(s, todo, c, k);
      end := DriveCompletes(s', todo[1..], c, k - 1);
    } else {
      var s' := TurnThen(s, todo, c, k);
      end := DriveCompletes(s', todo[1..], c, k - 3);
    }
  }

  lemma CustodyOfLayout(a: Deployments, b: Deployments, chain: Chain, chain': Chain)
    requires SameLayout(a, b) && Custody(a, chain) && chain' == chain.(impls := chain'.impls)
    ensures Custody(b, chain')
  {
  }

  /** The final verification succeeds: upgrades establish what the verifier tests. */
  lemma FinishedVerifies(b: System, s: System)
    requires Rested(b) && Custody(b.current, b.chain) && Finished(b, s)
    ensures Verify(s.current, s.tmp, s.chain) == Verified(true)
  {
    CustodyOfLayout(b.current, s.current, b.chain, s.chain);
    forall n | n in s.current.contracts
      ensures Agrees(n, s.current, s.chain)
    {
      SameSlots(b.current, s.current, n);
      assert Agrees(n, b.current, b.chain);
      if n !in Recognised(b) {
        var slot := SlotOf(n, b.current.contracts).value;
        assert !Target(b, slot);
      }
    }
    VerifiedIff(s.current, s.tmp, s.chain);
  }

  /** A start with 'Yes' answers, driven to the end. */
  function FullRun(order: seq<ContractName>): (steps: seq<Step>)
    ensures NoDeploy(steps)
  {
    [Start(Text("Yes"), Text("Yes"), true, order)] + Advances(3 * |order| + 2)
  }

  lemma FullRunExec(s: System, order: seq<ContractName>)
    ensures Exec(s, FullRun(order))
         == Drive(Next(s, Start(Text("Yes"), Text("Yes"), true, order)), 3 * |order| + 2)
  {
    var start := Start(Text("Yes"), Text("Yes"), true, order);
    ExecSnoc(s, [], start);
    assert [] + [start] == [start];
    ExecAppend(s, [start], Advances(3 * |order| + 2));
    DriveIsExec(Next(s, start), 3 * |order| + 2);
  }

  /** A start that verification lets through is ready at its first loop head. */
  lemma StartsReady(b: System, s: System, order: seq<ContractName>)
    requires Rested(b) && Custody(b.current, b.chain) && AllHaveMechanisms(b)
    requires Safe(s) && Between(b, s) && s.proc.None?
    requires Mismatched(s) == {} && s.queue != map[] && IsOrder(order, s.queue.Keys)
    ensures Ready(Next(s, Start(Text("Yes"), Text("Yes"), true, order)), order, b.current.contracts)
  {
    forall n | n in DataInForce(s).contracts
      ensures Agrees(n, DataInForce(s), s.chain)
    {
      assert n !in Mismatched(s);
    }
    CustodyOfLayout(b.current, s.current, b.chain, s.chain);
    VerifiedIff(s.current, s.tmp, s.chain);
    SafeStep(s, Start(Text("Yes"), Text("Yes"), true, order));
    forall n | n in order && n in b.current.contracts
      ensures HasMechanism(n, b.current.contracts)
    {
      assert n in Recognised(b);
    }
  }

  /** From anywhere on the way, a run that is not interrupted finishes the update. */
  lemma FullRunFinishes(b: System, steps: seq<Step>, order: seq<ContractName>)
    requires Rested(b) && NoDeploy(steps) && Custody(b.current, b.chain) && AllHaveMechanisms(b)
    requires var s := Exec(b, steps);
             s.proc.None? && Mismatched(s) == {} && s.queue != map[] && IsOrder(order, s.queue.Keys)
    ensures Finished(b, Exec(Exec(b, steps), FullRun(order)))
  {
    var s := Exec(b, steps);
    BetweenForever(b, steps);
    StartsReady(b, s, order);
    var s1 := Next(s, Start(Text("Yes"), Text("Yes"), true, order));
    var end := DriveCompletes(s1, order, b.current.contracts, 3 * |order| + 2);
    FullRunExec(s, order);
    ExecAppend(b, steps, FullRun(order));
    FullRunEnds(b, steps + FullRun(order), end);
  }

  lemma FullRunEnds(b: System, steps: seq<Step>, end: System)
    requires Rested(b) && NoDeploy(steps) && end == Exec(b, steps) && AtEnd(end)
    ensures Finished(b, end)
  {
    AllOrNothing(b, steps);
    AtRest(b, end);
  }

  /** An uninterrupted update from a verified state applies the whole queue, and its last
      verification is a success, for every order the sort may produce. */
  lemma UpdateSucceeds(b: System, order: seq<ContractName>)
    requires b.proc.None? && b.tmp.None? && DistinctSlots(b.current.contracts)
    requires Verify(b.current, b.tmp, b.chain) == Verified(true)
    requires AllHaveMechanisms(b) && b.queue != map[] && IsOrder(order, b.queue.Keys)
    ensures var r := Exec(b, FullRun(order));
            Finished(b, r) && Verify(r.current, r.tmp, r.chain) == Verified(true)
  {
    VerifiedIff(b.current, b.tmp, b.chain);
    assert Rested(b);
    assert Exec(b, []) == b;
    FullRunFinishes(b, [], order);
    FinishedVerifies(b, Exec(b, FullRun(order)));
  }

  /** A tmp file beside a mismatch or beside an empty queue is never cleared by further runs. */
  lemma {:induction false} Stranded(s: System, steps: seq<Step>)
    requires Safe(s) && s.proc.None? && s.tmp.Some? && NoDeploy(steps)
    requires Mismatched(s) != {} || s.queue == map[]
    ensures Exec(s, steps) == s
    decreases |steps|
  {
    if steps == [] {
    } else {
      Stranded(s, steps[..|steps| - 1]);
      VerifiedIff(s.current, s.tmp, s.chain);
      if Mismatched(s) != {} {
        var n :| n in Mismatched(s);
        assert !AgreeExcept(DataInForce(s), s.chain, None);
      }
    }
  }

  lemma OrderExists(keys: set<ContractName>) returns (order: seq<ContractName>)
    ensures IsOrder(order, keys)
    decreases keys
  {
    if keys == {} {
      order := [];
    } else {
      var n :| n in keys;
      var rest := OrderExists(keys - {n});
      order := [n] + rest;
    }
  }

  ghost predicate Resumable(b: System, s: System) {
    exists more :: NoDeploy(more) && Finished(b, Exec(s, more))
  }

  /** When can a crashed update be finished by re-runs alone? Exactly when the crash did
      not fall between a transaction and its tmp write (unless the address was the recorded
      one) and something is still queued: after a crash between the last queue write and the
      commit it takes an unrecognised entry left in the queue, or another deployment. */
  lemma ResumableIff(b: System, steps: seq<Step>)
    requires Rested(b) && NoDeploy(steps) && Custody(b.current, b.chain) && AllHaveMechanisms(b)
    requires Exec(b, steps).proc.None? && Exec(b, steps).tmp.Some?
    ensures var s := Exec(b, steps);
            Resumable(b, s) <==> Mismatched(s) == {} && s.queue != map[]
  {
    var s := Exec(b, steps);
    BetweenForever(b, steps);
    if Mismatched(s) == {} && s.queue != map[] {
      var order := OrderExists(s.queue.Keys);
      FullRunFinishes(b, steps, order);
      assert NoDeploy(FullRun(order));
    } else if Resumable(b, s) {
      var more :| NoDeploy(more) && Finished(b, Exec(s, more));
      Stranded(s, more);
      assert false;
    }
  }

  // ---------------------------------------------------------------- with deployments

  /** A mismatch is never cleared: from then on a history changes nothing but the queue. */
  lemma {:induction false} MismatchForever(s: System, steps: seq<Step>)
    requires Safe(s) && s.proc.None? && Mismatched(s) != {}
    ensures Exec(s, steps) == s.(queue := Exec(s, steps).queue)
    decreases |steps|
  {
    if steps == [] {
    } else {
      var init, last := steps[..|steps| - 1], steps[|steps| - 1];
      MismatchForever(s, init);
      var t := Exec(s, init);
      VerifiedIff(t.current, t.tmp, t.chain);
      var n :| n in Mismatched(s);
      assert !Agrees(n, DataInForce(t), t.chain);
      assert !AgreeExcept(DataInForce(t), t.chain, None);
    }
  }

  /** An update that waits with an empty queue and no mismatch is completed by deploying
      anything that the records do not know, and running again. */
  lemma DeploymentReleases(b: System, steps: seq<Step>, name: ContractName, u: QueuedUpdate)
    requires Rested(b) && NoDeploy(steps) && Custody(b.current, b.chain) && name !in b.current.contracts
    requires var s := Exec(b, steps);
             s.proc.None? && s.tmp.Some? && Mismatched(s) == {} && s.queue == map[]
    ensures var s := Exec(b, steps);
            var r := Exec(Next(s, Enqueue(name, u)), FullRun([name]));
            Completed(b, r) && r.chain == s.chain && r.queue == map[name := u]
  {
    hide Next, Drive, Mismatched, Verify, Safe, Between, Completed, FinalDeployments, Custody;
    var s := Exec(b, steps);
    BetweenForever(b, steps);
    AllDequeued(b, s);
    NothingMismatched(s);
    InForceIsTmp(s);
    RestedSafe(b);
    LayoutForever(b, steps);
    CustodyOfLayout(b.current, s.current, b.chain, s.chain);
    VerifiedIff(s.current, s.tmp, s.chain);
    FullRunExec(Next(s, Enqueue(name, u)), [name]);
    RunsThrough(s, name, u);
    ReleasedIsCompleted(b, s, name, u);
  }

  lemma ReleasedIsCompleted(b: System, s: System, name: ContractName, u: QueuedUpdate)
    requires Between(b, s) && DataInForce(s) == FinalDeployments(b) && AgreeExcept(DataInForce(s), s.chain, None)
    requires s.proc.None? && name !in b.current.contracts
    ensures Completed(b, s.(current := FinalDeployments(b), tmp := None, queue := map[name := u]))
  {
    ReadsFinal(b, s);
  }

  lemma NothingMismatched(s: System)
    requires Mismatched(s) == {}
    ensures AgreeExcept(DataInForce(s), s.chain, None)
  {
    forall n | n in DataInForce(s).contracts
      ensures Agrees(n, DataInForce(s), s.chain)
    {
      assert n !in Mismatched(s);
    }
  }

  /** A run on an unrecognised name only commits. */
  lemma RunsThrough(s: System, name: ContractName, u: QueuedUpdate)
    requires s.proc.None? && s.tmp.Some? && s.queue == map[] && name !in s.tmp.value.contracts
    requires Verify(s.current, s.tmp, s.chain) == Verified(true)
    ensures Drive(Next(Next(s, Enqueue(name, u)), Start(Text("Yes"), Text("Yes"), true, [name])), 5)
         == s.(current := s.tmp.value, tmp := None, queue := map[name := u])
  {
    hide Verify;
    var d, q := s.tmp.value, map[name := u];
    var s1 := Next(Next(s, Enqueue(name, u)), Start(Text("Yes"), Text("Yes"), true, [name]));
    assert s1 == s.(queue := q, proc := Some(Process(Head, d, q, [name])));
    var s2 := Next(s1, Advance(true));
    assert [name][1..] == [];
    assert s2 == s.(queue := q, proc := Some(Process(Head, d, q, [])));
    var s3 := Next(s2, Advance(true));
    assert s3 == s.(current := d, queue := q, proc := Some(Process(Committed, d, q, [])));
    var s4 := Next(s3, Advance(true));
    assert s4 == s.(current := d, tmp := None, queue := q);
    assert ThreeMore(s1) == s4;
    hide Next;
    DriveThree(s1, 5);
    DriveIdle(s4, 2);
  }

  lemma ReadsFinal(b: System, s: System)
    requires Between(b, s) && DataInForce(s) == FinalDeployments(b) && AgreeExcept(DataInForce(s), s.chain, None)
    ensures forall n :: n in Recognised(b) ==>
      && SlotOf(n, b.current.contracts).Some?
      && s.chain.Read(SlotOf(n, b.current.contracts).value) == b.queue[n].address
  {
    forall n | n in Recognised(b)
      ensures SlotOf(n, b.current.contracts).Some?
      ensures s.chain.Read(SlotOf(n, b.current.contracts).value) == b.queue[n].address
    {
      SameSlots(DataInForce(s), b.current, n);
      assert Agrees(n, DataInForce(s), s.chain);
    }
  }

  /** Some history, with or without deployments, completes the update. */
  ghost predicate Completable(b: System, s: System) { exists more :: Completed(b, Exec(s, more)) }

  lemma UnknownName(keys: set<ContractName>) returns (name: ContractName)
    ensures name !in keys
  {
    var n := LongerThan(keys);
    name := Other(seq(n, _ => 'a'));
  }

  lemma LongerThan(keys: set<ContractName>) returns (n: nat)
    ensures forall k :: k in keys && k.Other? ==> |k.key| < n
    decreases keys
  {
    if keys == {} {
      n := 0;
    } else {
      var k :| k in keys;
      n := LongerThan(keys - {k});
      if k.Other? && n <= |k.key| {
        n := |k.key| + 1;
      }
    }
  }

  /** When can a crashed update be completed at all? Exactly when no contract runs what its
      record in force does not name: only a crash between a transaction and its tmp write,
      with a new address, is beyond repair by the scripts. */
  lemma CompletableIff(b: System, steps: seq<Step>)
    requires Rested(b) && NoDeploy(steps) && Custody(b.current, b.chain) && AllHaveMechanisms(b)
    requires Exec(b, steps).proc.None? && Exec(b, steps).tmp.Some?
    ensures var s := Exec(b, steps); Completable(b, s) <==> Mismatched(s) == {}
  {
    var s := Exec(b, steps);
    BetweenForever(b, steps);
    if Mismatched(s) != {} {
      if more :| Completed(b, Exec(s, more)) {
        MismatchForever(s, more);
        assert false;
      }
    } else if s.queue == map[] {
      var name := UnknownName(b.current.contracts.Keys);
      var u := QueuedUpdate(0, "", "", "");
      DeploymentReleases(b, steps, name, u);
      ExecAppend(s, [Enqueue(name, u)], FullRun([name]));
      ExecSnoc(s, [], Enqueue(name, u));
      assert [] + [Enqueue(name, u)] == [Enqueue(name, u)];
    } else {
      var order := OrderExists(s.queue.Keys);
      FullRunFinishes(b, steps, order);
    }
  }

  // ---------------------------------------------------------------- when it cannot be

  /** A run that is killed after `k` of its effects. */
  function KilledAfter(k: nat, order: seq<ContractName>): (steps: seq<Step>)
    ensures NoDeploy(steps)
  {
    [Start(Text("Yes"), Text("Yes"), true, order)] + Advances(k) + [Crash]
  }

  lemma KilledExec(s: System, order: seq<ContractName>, k: nat)
    ensures Exec(s, KilledAfter(k, order))
         == Die(Drive(Next(s, Start(Text("Yes"), Text("Yes"), true, order)), k))
  {
    var start := Start(Text("Yes"), Text("Yes"), true, order);
    ExecSnoc(s, [], start);
    assert [] + [start] == [start];
    ExecAppend(s, [start], Advances(k));
    DriveIsExec(Next(s, start), k);
    ExecSnoc(s, [start] + Advances(k), Crash);
  }

  lemma NotResumable(b: System, s: System)
    requires Safe(s) && s.proc.None? && s.tmp.Some? && (Mismatched(s) != {} || s.queue == map[])
    ensures !Resumable(b, s)
  {
    if more :| NoDeploy(more) && Finished(b, Exec(s, more)) {
      Stranded(s, more);
      assert false;
    }
  }

  /** A verified system with a single, recognised update queued. */
  ghost predicate OneQueued(b: System, name: ContractName) {
    && Rested(b) && Custody(b.current, b.chain) && AllHaveMechanisms(b)
    && name in b.current.contracts && b.queue.Keys == {name}
  }

  /** The first loop head of a run on it. */
  lemma OneReady(b: System, name: ContractName) returns (s: System, p: Process)
    requires OneQueued(b, name)
    ensures s == Next(b, Start(Text("Yes"), Text("Yes"), true, [name])) && Safe(s) && s.proc == Some(p)
    ensures s == b.(tmp := Some(b.current), proc := Some(p)) && p == Process(Head, b.current, b.queue, [name])
    ensures HasMechanism(name, b.current.contracts)
  {
    assert name in Recognised(b);
    s := Next(b, Start(Text("Yes"), Text("Yes"), true, [name]));
    p := Process(Head, b.current, b.queue, [name]);
    VerifiedIff(b.current, b.tmp, b.chain);
    RestedSafe(b);
    SafeStep(b, Start(Text("Yes"), Text("Yes"), true, [name]));
  }

  /** A kill between the queue write and the commit: all is done and nothing disagrees, but
      no number of runs commits it; another deployment and a run do. */
  lemma LateKillNeedsDeployment(b: System, name: ContractName)
    requires OneQueued(b, name)
    ensures var r := Exec(b, KilledAfter(3, [name]));
      && r.proc.None? && r.tmp == Some(FinalDeployments(b)) && r.current == b.current
      && Mismatched(r) == {} && r.queue == map[] && !Resumable(b, r)
      && forall other, u :: other !in b.current.contracts ==>
           Completed(b, Exec(Next(r, Enqueue(other, u)), FullRun([other])))
  {
    hide Safe, Between, ThreeMore, Exec, Drive, Mismatched, DataInForce, Next, Resumable;
    var s, p := OneReady(b, name);
    DriveThree(s, 3);
    DriveNone(ThreeMore(s));
    KilledExec(b, [name], 3);
    LateKill(s, p, name);
    var r := Exec(b, KilledAfter(3, [name]));
    BetweenForever(b, KilledAfter(3, [name]));
    AllDequeued(b, r);
    InForceIsTmp(r);
    NotResumable(b, r);
    forall other, u | other !in b.current.contracts
      ensures Completed(b, Exec(Next(r, Enqueue(other, u)), FullRun([other])))
    {
      DeploymentReleases(b, KilledAfter(3, [name]), other, u);
    }
  }

  lemma DriveNone(s: System)
    ensures Drive(s, 0) == s
  {
  }

  lemma InForceIsTmp(s: System)
    requires s.tmp.Some?
    ensures s.tmp == Some(DataInForce(s))
  {
  }

  lemma LateKill(s: System, p: Process, name: ContractName)
    requires Safe(s) && s.proc == Some(p) && p.pc == Head && p.todo == [name]
    requires name in p.data.contracts && HasMechanism(name, p.data.contracts) && s.queue.Keys == {name}
    ensures var r := Die(ThreeMore(s));
            r.tmp.Some? && Mismatched(r) == {} && r.queue == map[] && r.current == s.current
  {
    Turn(s, p);
    hide ThreeMore, Mismatched, AgreeExcept, DistinctSlots;
    HeadMatches(ThreeMore(s));
  }

  lemma HeadMatches(s: System)
    requires Safe(s) && s.proc.Some? && s.proc.value.pc == Head
    ensures Die(s).tmp.Some? && Mismatched(Die(s)) == {}
  {
    var p := s.proc.value;
    assert DataInForce(Die(s)) == p.data && AgreeExcept(p.data, s.chain, None);
  }

  /** A kill between the transaction and the tmp write, if the address is a new one: the
      contract runs what its record does not name, and whatever is run or deployed from then
      on, nothing but the queue ever changes. */
  lemma EarlyKillStrands(b: System, name: ContractName)
    requires OneQueued(b, name) && b.queue[name].address != b.current.contracts[name].impl
    ensures var r := Exec(b, KilledAfter(1, [name]));
      && r.proc.None? && r.tmp == Some(b.current) && r.queue == b.queue
      && Mismatched(r) == {name} && !Resumable(b, r)
      && forall more :: Exec(r, more) == r.(queue := Exec(r, more).queue)
  {
    hide Safe, Between, Exec, Drive, Mismatched, Next, Resumable;
    var s, p := OneReady(b, name);
    DriveOne(s);
    KilledExec(b, [name], 1);
    EarlyKill(s, p, name);
    BetweenForever(b, KilledAfter(1, [name]));
    var r := Exec(b, KilledAfter(1, [name]));
    NotResumable(b, r);
    forall more
      ensures Exec(r, more) == r.(queue := Exec(r, more).queue)
    {
      MismatchForever(r, more);
    }
  }

  lemma DriveOne(s: System)
    ensures Drive(s, 1) == Next(s, Advance(true))
  {
    DriveNone(Next(s, Advance(true)));
  }

  lemma EarlyKill(s: System, p: Process, name: ContractName)
    requires Safe(s) && s.proc == Some(p) && p.pc == Head && p.todo == [name] && name in p.queue
    requires name in p.data.contracts && HasMechanism(name, p.data.contracts)
    requires p.queue[name].address != p.data.contracts[name].impl
    ensures var r := Die(Next(s, Advance(true)));
            r == Die(s).(chain := r.chain) && Mismatched(r) == {name}
  {
    SafeLanding(s, p);
    var t := Next(s, Advance(true));
    assert t == s.(chain := t.chain, proc := Some(p.(pc := Landed)));
    LandedMismatch(t, p.(pc := Landed), name);
  }

  lemma LandedMismatch(s: System, p: Process, name: ContractName)
    requires Safe(s) && s.proc == Some(p) && p.pc == Landed && p.todo == [name]
    requires name in p.data.contracts && name in p.queue && p.queue[name].address != p.data.contracts[name].impl
    ensures Mismatched(Die(s)) == {name}
  {
    assert DataInForce(Die(s)) == p.data;
    assert forall n :: n in p.data.contracts && n != name ==> Agrees(n, p.data, s.chain);
  }

  /** A verified system with one new implementation queued for its single contract. */
  function OneProxy(): System {
    System(Deployments(1, map[Inbox := Record(2, 10, "", "", "")]), None,
           map[Inbox := QueuedUpdate(11, "", "", "")],
           Chain(map[ProxyImpl(2) := 10], map[2 := 1], map[], {1}), None)
  }

  /** So both kills can happen. No run finishes after either; only after the second is there
      a way out, by deploying once more. */
  lemma KilledStatesReachable()
    ensures var early, late := Exec(OneProxy(), KilledAfter(1, [Inbox])), Exec(OneProxy(), KilledAfter(3, [Inbox]));
      && !Resumable(OneProxy(), early) && !Completable(OneProxy(), early)
      && !Resumable(OneProxy(), late) && Completable(OneProxy(), late)
  {
    hide *;
    OneProxyQueued();
    OneProxyParts();
    EarlyKillStrands(OneProxy(), Inbox);
    LateKillNeedsDeployment(OneProxy(), Inbox);
    CompletableIff(OneProxy(), KilledAfter(1, [Inbox]));
    CompletableIff(OneProxy(), KilledAfter(3, [Inbox]));
  }

  lemma OneProxyParts()
    ensures var b := OneProxy();
      && Rested(b) && Custody(b.current, b.chain) && AllHaveMechanisms(b)
      && Inbox in b.queue && Inbox in b.current.contracts
      && b.queue[Inbox].address != b.current.contracts[Inbox].impl
  {
  }

  lemma OneProxyQueued()
    ensures OneQueued(OneProxy(), Inbox)
  {
  }

  // ------------------------------------------------------- one run, at its loop heads

  /** The contracts `c` with the entries of `queue` applied for the names in `done`. */
  function Applied(c: map<ContractName, Record>, queue: Queue, done: seq<ContractName>): map<ContractName, Record> {
    map n | n in c :: if n in done && n in queue then NewRecord(c[n], queue[n]) else c[n]
  }

  /** The queue without the recognised names in `done`. */
  function Remaining(c: map<ContractName, Record>, queue: Queue, done: seq<ContractName>): Queue {
    map n | n in queue && !(n in done && n in c) :: queue[n]
  }

  /** Where a process stands that was started on the data `d` and the queue `q`. */
  ghost predicate InRun(d: Deployments, q: Queue, order: seq<ContractName>, p: Process) {
    && |p.todo| <= |order| && p.todo == order[|order| - |p.todo|..]
    && (p.pc == Recorded || p.pc == Landed ==> p.todo != [] && p.todo[0] in d.contracts)
    && var i := |order| - |p.todo|;
       && p.queue == Remaining(d.contracts, q, order[..i])
       && p.data == d.(contracts := Applied(d.contracts, q, if p.pc == Recorded then order[..i + 1] else order[..i]))
  }

  lemma DoneSkip(c: map<ContractName, Record>, q: Queue, order: seq<ContractName>, i: nat)
    requires i < |order| && order[i] !in c
    ensures Applied(c, q, order[..i + 1]) == Applied(c, q, order[..i])
    ensures Remaining(c, q, order[..i + 1]) == Remaining(c, q, order[..i])
  {
  }

  lemma DoneApply(c: map<ContractName, Record>, q: Queue, order: seq<ContractName>, i: nat)
    requires NoDuplicates(order) && i < |order| && order[i] in c && order[i] in q
    ensures Applied(c, q, order[..i])[order[i]] == c[order[i]]
    ensures Applied(c, q, order[..i + 1])
         == Applied(c, q, order[..i])[order[i] := NewRecord(c[order[i]], q[order[i]])]
    ensures Remaining(c, q, order[..i + 1]) == Remaining(c, q, order[..i]) - {order[i]}
  {
  }

  lemma InRunStep(d: Deployments, q: Queue, order: seq<ContractName>, s: System, p: Process, accepted: bool)
    requires NoDuplicates(order) && s.proc == Some(p) && InRun(d, q, order, p)
    ensures var s' := Progress(s, p, accepted); s'.proc.Some? ==> InRun(d, q, order, s'.proc.value)
  {
    hide TxFor, Execute;
    if p.todo != [] {
      var i := |order| - |p.todo|;
      assert p.todo[0] == order[i] && p.todo[1..] == order[i + 1..];
      if order[i] !in d.contracts {
        DoneSkip(d.contracts, q, order, i);
      } else if order[i] in q {
        DoneApply(d.contracts, q, order, i);
        if p.pc == Recorded || p.pc == Landed {
          InRunVisit(d, q, order, s, p, accepted);
        }
      }
    }
  }

  lemma InRunVisit(d: Deployments, q: Queue, order: seq<ContractName>, s: System, p: Process, accepted: bool)
    requires NoDuplicates(order) && s.proc == Some(p) && InRun(d, q, order, p) && p.todo != []
    requires p.todo[0] in d.contracts && p.todo[0] in q && (p.pc == Recorded || p.pc == Landed)
    ensures var s' := Progress(s, p, accepted); s'.proc.Some? ==> InRun(d, q, order, s'.proc.value)
  {
    var i := |order| - |p.todo|;
    assert p.todo[0] == order[i] && p.todo[1..] == order[i + 1..];
    DoneApply(d.contracts, q, order, i);
    hide TxFor, Execute, Applied, Remaining;
  }

  /** At every loop head each visited contract that the record knows has left the queue and
      carries exactly the queued address, transaction and commit; every other entry is still
      queued beside its old record; unrecognised entries stay queued; and no key and no proxy
      address has changed. */
  lemma LoopHead(s: System, start: Step, flags: seq<bool>, steps: seq<Step>)
    requires s.proc.None? && start.Start?
    requires |steps| == |flags| && forall i :: 0 <= i < |steps| ==> steps[i] == Advance(flags[i])
    ensures var r := Exec(Next(s, start), steps);
      r.proc.Some? && r.proc.value.pc == Head ==>
        var c, p := DataInForce(s).contracts, r.proc.value;
        && |p.todo| <= |start.order|
        && var done := start.order[..|start.order| - |p.todo|];
        && p.data.contracts.Keys == c.Keys
        && (forall n :: n in c ==> p.data.contracts[n].proxy == c[n].proxy)
        && (forall n :: n in done && n in c && n in s.queue ==>
              var r, u := p.data.contracts[n], s.queue[n];
              && n !in p.queue && r.proxy == c[n].proxy && r.impl == u.address
              && r.deployTxn == u.deployTxn && r.commit == u.commit && r.buildInfo == "")
        && (forall n :: n in s.queue && (n !in done || n !in c) ==> n in p.queue && p.queue[n] == s.queue[n])
        && (forall n :: n in c && n !in done ==> p.data.contracts[n] == c[n])
  {
    var r := Exec(Next(s, start), steps);
    InRunForever(s, start, flags, steps);
    if r.proc.Some? && r.proc.value.pc == Head {
      var d, p := DataInForce(s), r.proc.value;
      assert InRun(d, s.queue, start.order, p);
    }
  }

  lemma {:induction false} InRunForever(s: System, start: Step, flags: seq<bool>, steps: seq<Step>)
    requires s.proc.None? && start.Start?
    requires |steps| == |flags| && forall i :: 0 <= i < |steps| ==> steps[i] == Advance(flags[i])
    ensures var r := Exec(Next(s, start), steps);
            r.proc.Some? ==>
              NoDuplicates(start.order) && InRun(DataInForce(s), s.queue, start.order, r.proc.value)
    decreases |steps|
  {
    if steps == [] {
      var r := Next(s, start);
      if r.proc.Some? {
        var c := DataInForce(s).contracts;
        assert start.order[0..] == start.order;
        assert Applied(c, s.queue, start.order[..0]) == c;
        assert Remaining(c, s.queue, start.order[..0]) == s.queue;
      }
    } else {
      InRunForever(s, start, flags[..|flags| - 1], steps[..|steps| - 1]);
      var before := Exec(Next(s, start), steps[..|steps| - 1]);
      if before.proc.Some? {
        InRunStep(DataInForce(s), s.queue, start.order, before, before.proc.value, flags[|flags| - 1]);
      }
    }
  }
}
