/** The upgrade scripts themselves, with their loops and their files, tied to the state
    machine of Protocol: every run of a method is a history of that machine. */
module Upgrader {
  import opened Wrappers
  import opened ContractTypes
  import opened Deployment
  import opened Protocol
  import opened Atomicity
  import opened Resume

  /** How a script ends; `Killed` is a process that dies between two effects. */
  datatype Outcome = Exited | Failed | Killed | Returned(ok: bool)

  /** One contract asked of `deployLogic`: whether the user agrees to redeploy it if it is
      already queued, and what its deployment yields, if it succeeds. */
  datatype Request = Request(name: ContractName, redeploy: bool, receipt: Option<QueuedUpdate>)

  /** The queue that a list of requests leaves on a chain of the given layer, and whether
      the script got to the end of the list. */
  function Deployed(queue: Queue, requests: seq<Request>, layer: nat): (Queue, bool)
    decreases |requests|
  {
    if requests == [] then (queue, true)
    else
      var r := requests[0];
      if r.name in queue && !r.redeploy then Deployed(queue, requests[1..], layer)
      else if GetLayer(r.name) != layer || r.receipt.None? then (queue, false)
      else Deployed(queue[r.name := r.receipt.value], requests[1..], layer)
  }

  /** Some of the first `k` requests is for the name. */
  ghost predicate Asked(requests: seq<Request>, k: nat, name: ContractName)
    requires k <= |requests|
  {
    exists i :: 0 <= i < k && requests[i].name == name
  }

  /** Request `i` is passed over: its name is queued by then, and is not to be redeployed. */
  ghost predicate Skipped(queue: Queue, requests: seq<Request>, i: nat)
    requires i < |requests|
  {
    !requests[i].redeploy && (requests[i].name in queue || Asked(requests, i, requests[i].name))
  }

  predicate Deployable(r: Request, layer: nat) { GetLayer(r.name) == layer && r.receipt.Some? }

  /** Which of the first `k` requests deployed `name` last. */
  ghost function Deployer(queue: Queue, requests: seq<Request>, k: nat, name: ContractName): Option<nat>
    requires k <= |requests|
  {
    if k == 0 then None
    else if requests[k - 1].name == name && !Skipped(queue, requests, k - 1) then Some(k - 1)
    else Deployer(queue, requests, k - 1, name)
  }

  /** The first `k` requests are served: each was skipped or deployed, and the queue holds for
      every name what was deployed last, or what it held. */
  ghost predicate Served(queue: Queue, requests: seq<Request>, layer: nat, k: nat, after: Queue)
    requires k <= |requests|
  {
    && (forall i :: 0 <= i < k ==> Skipped(queue, requests, i) || Deployable(requests[i], layer))
    && forall n :: HoldsLast(queue, requests, k, after, n)
  }

  ghost predicate HoldsLast(queue: Queue, requests: seq<Request>, k: nat, after: Queue, name: ContractName)
    requires k <= |requests|
  {
    var at := Deployer(queue, requests, k, name);
    && (name in after <==> name in queue || Asked(requests, k, name))
    && (at.Some? ==> at.value < k && name in after && Some(after[name]) == requests[at.value].receipt)
    && (at.None? && name in after ==> name in queue && after[name] == queue[name])
  }

  lemma ServedNone(queue: Queue, requests: seq<Request>, layer: nat)
    ensures Served(queue, requests, layer, 0, queue)
  {
  }

  lemma AskedNext(requests: seq<Request>, k: nat, name: ContractName)
    requires k < |requests|
    ensures Asked(requests, k + 1, name) <==> Asked(requests, k, name) || requests[k].name == name
  {
  }

  lemma DeployerNext(queue: Queue, requests: seq<Request>, k: nat, name: ContractName)
    requires k < |requests|
    ensures Deployer(queue, requests, k + 1, name)
         == if requests[k].name == name && !Skipped(queue, requests, k) then Some(k)
            else Deployer(queue, requests, k, name)
  {
  }

  lemma HoldsNext(queue: Queue, requests: seq<Request>, k: nat, after: Queue, name: ContractName)
    requires k < |requests| && HoldsLast(queue, requests, k, after, name)
    requires Skipped(queue, requests, k) == (requests[k].name in after && !requests[k].redeploy)
    ensures Skipped(queue, requests, k) ==> HoldsLast(queue, requests, k + 1, after, name)
    ensures !Skipped(queue, requests, k) && requests[k].receipt.Some? ==>
      HoldsLast(queue, requests, k + 1, after[requests[k].name := requests[k].receipt.value], name)
  {
    hide Skipped, Asked, Deployer;
    AskedNext(requests, k, name);
    DeployerNext(queue, requests, k, name);
    if requests[k].name == name && !Skipped(queue, requests, k) {
      assert Deployer(queue, requests, k + 1, name) == Some(k);
    } else {
      assert Deployer(queue, requests, k + 1, name) == Deployer(queue, requests, k, name);
    }
  }

  lemma ServedNext(queue: Queue, requests: seq<Request>, layer: nat, k: nat, after: Queue)
    requires k < |requests| && Served(queue, requests, layer, k, after)
    ensures (requests[k].name in after && !requests[k].redeploy) == Skipped(queue, requests, k)
    ensures Skipped(queue, requests, k) ==> Served(queue, requests, layer, k + 1, after)
    ensures !Skipped(queue, requests, k) && Deployable(requests[k], layer) ==>
      Served(queue, requests, layer, k + 1, after[requests[k].name := requests[k].receipt.value])
  {
    SkippedNow(queue, requests, k, after);
    hide Skipped, HoldsLast;
    var next := k + 1;
    forall n: ContractName
      ensures Skipped(queue, requests, k) ==> HoldsLast(queue, requests, next, after, n)
    {
      HoldsNext(queue, requests, k, after, n);
    }
    if !Skipped(queue, requests, k) && requests[k].receipt.Some? {
      var after' := after[requests[k].name := requests[k].receipt.value];
      forall n: ContractName
        ensures HoldsLast(queue, requests, next, after', n)
      {
        HoldsNext(queue, requests, k, after, n);
      }
    }
  }

  lemma SkippedNow(queue: Queue, requests: seq<Request>, k: nat, after: Queue)
    requires k < |requests| && HoldsLast(queue, requests, k, after, requests[k].name)
    ensures (requests[k].name in after && !requests[k].redeploy) == Skipped(queue, requests, k)
  {
  }

  // ---------------------------------------------------------------- what a run is told

  /** The next thing to do is to upgrade a recorded contract. */
  predicate AtUpgrade(p: Process) { p.pc == Head && p.todo != [] && p.todo[0] in p.data.contracts }

  /** A transaction is sent exactly for an upgradable contract that the chain accepts. */
  ghost predicate Obeys(s: System, step: Step, accepts: set<ContractName>) {
    && s.proc.Some? && (step.Advance? || step.Crash?)
    && (step.Advance? && AtUpgrade(s.proc.value) ==>
          var p := s.proc.value;
          step.accepted <==> p.todo[0] in accepts && HasMechanism(p.todo[0], p.data.contracts))
  }

  /** The history of one call: its own start, and then steps that obey. */
  ghost predicate AsCalled(base: System, path: seq<Step>, start: Step, accepts: set<ContractName>) {
    path == [] || (path[0] == start && forall i :: 0 < i < |path| ==> Obeys(Exec(base, path[..i]), path[i], accepts))
  }

  /** How many of the names are recorded. */
  function Known(names: seq<ContractName>, c: map<ContractName, Record>): nat {
    if names == [] then 0 else Known(names[..|names| - 1], c) + if names[|names| - 1] in c then 1 else 0
  }

  lemma {:induction false} KnownGrows(names: seq<ContractName>, c: map<ContractName, Record>, i: nat)
    requires i <= |names|
    ensures Known(names[..i], c) <= Known(names, c)
    decreases |names|
  {
    if i == |names| {
      assert names[..i] == names;
    } else {
      KnownGrows(names[..|names| - 1], c, i);
      assert names[..|names| - 1][..i] == names[..i];
    }
  }

  lemma KnownNext(names: seq<ContractName>, c: map<ContractName, Record>, i: nat)
    requires i < |names|
    ensures Known(names[..i + 1], c) == Known(names[..i], c) + (if names[i] in c then 1 else 0) <= Known(names, c)
  {
    assert names[..i + 1][..i] == names[..i];
    KnownGrows(names, c, i + 1);
  }

  /** Every recorded name can be upgraded, and its transaction is accepted. */
  ghost predicate AllGo(names: seq<ContractName>, c: map<ContractName, Record>, accepts: set<ContractName>) {
    forall n :: n in names && n in c ==> n in accepts && HasMechanism(n, c)
  }

  /** How many effects a run needs to get to its end. */
  function Needed(s: System, order: seq<ContractName>): nat {
    (if s.tmp.None? then 1 else 0) + 3 * Known(order, DataInForce(s).contracts) + 2
  }

  /** The prompts let the run begin. */
  predicate AnswersAccepted(s: System, atVerify: Answer, atLoad: Answer) {
    s.tmp.Some? ==> atVerify == Text("Yes") && atLoad == Text("Yes")
  }

  /** A run that gets to its end. */
  ghost predicate Goes(s: System, atVerify: Answer, atLoad: Answer, signerIsOwner: bool,
                       order: seq<ContractName>, accepts: set<ContractName>, effects: nat)
  {
    && AnswersAccepted(s, atVerify, atLoad) && Verify(s.current, s.tmp, s.chain) == Verified(true)
    && signerIsOwner && order != []
    && AllGo(order, DataInForce(s).contracts, accepts) && effects >= Needed(s, order)
  }

  class UpgradeScripts {
    var current: Deployments
    var tmp: Option<Deployments>
    var queue: Queue
    var chain: Chain
    /** How many more effects the running process lives to perform. */
    var budget: nat

    constructor (current: Deployments, tmp: Option<Deployments>, queue: Queue, chain: Chain)
      ensures World() == System(current, tmp, queue, chain, None)
    {
      this.current, this.tmp, this.queue, this.chain, budget := current, tmp, queue, chain, 0;
    }

    /** Spend one effect; false means that the process is killed before it. */
    method Spend() returns (alive: bool)
      modifies `budget
      ensures alive <==> old(budget) > 0
      ensures budget == if alive then old(budget) - 1 else 0
    {
      alive := budget > 0;
      if alive {
        budget := budget - 1;
      }
    }

    /** The persistent state, without or with a running process. */
    ghost function World(): System
      reads this
    {
      System(current, tmp, queue, chain, None)
    }

    ghost function Running(pc: Pc, data: Deployments, pending: Queue, todo: seq<ContractName>): System
      reads this
    {
      System(current, tmp, queue, chain, Some(Process(pc, data, pending, todo)))
    }

    /** The loop over the records: a failed check clears the flag and goes on. */
    method VerifyCurrentImplementations(answer: Answer) returns (r: Outcome)
      ensures r == if tmp.Some? && answer != Text("Yes") then Exited
                   else match Verify(current, tmp, chain)
                        case Threw => Failed
                        case Verified(ok) => Returned(ok)
    {
      if tmp.Some? && !Accepted(answer) {
        return Exited;
      }
      if current.proxyAdmin !in chain.code {
        return Failed;
      }
      var success := true;
      var rest := current.contracts.Keys;
      while rest != {}
        invariant rest <= current.contracts.Keys
        invariant forall n :: n in current.contracts && n !in rest ==>
          CheckRecord(n, RecordFor(n, current, tmp), current, chain) != Throws
        invariant success == forall n :: n in current.contracts && n !in rest ==>
          CheckRecord(n, RecordFor(n, current, tmp), current, chain) == Passes
        decreases rest
      {
        var name :| name in rest;
        var check := CheckRecord(name, RecordFor(name, current, tmp), current, chain);
        if check == Throws {
          return Failed;
        }
        if check == Fails {
          success := false;
        }
        rest := rest - {name};
      }
      return Returned(success);
    }

    /** `deployLogic`: the queue file is written after each deployment. The first `done`
        requests are served; the next one, if any, is for the wrong layer or failed. */
    method DeployLogic(requests: seq<Request>, layer: nat) returns (ok: bool, ghost done: nat, ghost path: seq<Step>)
      modifies `queue
      ensures (queue, ok) == Deployed(old(queue), requests, layer)
      ensures World() == Exec(old(World()), path) && forall i :: 0 <= i < |path| ==> path[i].Enqueue?
      ensures done <= |requests| && Served(old(queue), requests, layer, done, queue) && (ok <==> done == |requests|)
      ensures !ok ==> !Skipped(old(queue), requests, done) && !Deployable(requests[done], layer)
    {
      hide Exec, Served, Skipped;
      ghost var base := old(World());
      path, done := Nothing(base), 0;
      var i := 0;
      assert requests[0..] == requests;
      ServedNone(queue, requests, layer);
      while i < |requests|
        invariant 0 <= i <= |requests| && done == i
        invariant Deployed(queue, requests[i..], layer) == Deployed(old(queue), requests, layer)
        invariant World() == Exec(base, path) && forall k :: 0 <= k < |path| ==> path[k].Enqueue?
        invariant Served(old(queue), requests, layer, i, queue)
      {
        var r := requests[i];
        assert requests[i..][0] == r && requests[i..][1..] == requests[i + 1..];
        ServedNext(old(queue), requests, layer, i, queue);
        if !(r.name in queue && !r.redeploy) {
          if GetLayer(r.name) != layer || r.receipt.None? {
            return false, done, path;
          }
          queue := queue[r.name := r.receipt.value];
          path := Extend(base, path, Enqueue(r.name, r.receipt.value));
        }
        i, done := i + 1, done + 1;
      }
      assert requests[i..] == [];
      ok := true;
    }

    /** One update run. `effects` is how many effects the process lives to perform, and
        `accepts` the contracts whose transactions the chain accepts. Whatever happens, the
        run is a history of the state machine: its own start and steps that obey `accepts`. It
        returns exactly if the prompts are accepted, the verification succeeds, the signer is
        the owner, something is queued, nothing is refused and it lives long enough; and then
        it has applied the whole queue to the records that were in force and reports success.
        A prompt that is not accepted ends it without an effect, and a signer who is not the
        owner, or an empty queue, with no effect but the tmp file. */
    method UpdateImplementations(atVerify: Answer, atLoad: Answer, signerIsOwner: bool,
                                 order: seq<ContractName>, accepts: set<ContractName>, effects: nat)
      returns (r: Outcome, ghost path: seq<Step>)
      requires IsOrder(order, queue.Keys)
      modifies this
      ensures NoDeploy(path) && World() == Exec(old(World()), path)
      ensures AsCalled(old(World()), path, Start(atVerify, atLoad, signerIsOwner, order), accepts)
      ensures r == Exited <==>
        old(tmp).Some? && (atVerify != Text("Yes")
        || (atLoad != Text("Yes") && Verify(old(current), old(tmp), old(chain)) == Verified(true)))
      ensures old(tmp).Some? && (atVerify != Text("Yes") || atLoad != Text("Yes")) ==>
        !r.Returned? && World() == old(World())
      ensures Verify(old(current), old(tmp), old(chain)) != Verified(true) ==>
        !r.Returned? && World() == old(World())
      ensures !signerIsOwner || order == [] ==>
        !r.Returned? && current == old(current) && queue == old(queue) && chain == old(chain)
      ensures (!signerIsOwner || order == []) && AnswersAccepted(old(World()), atVerify, atLoad)
              && Verify(old(current), old(tmp), old(chain)) == Verified(true)
              && (old(tmp).None? ==> effects > 0) ==>
        r == Failed && World() == old(World()).(tmp := Some(DataInForce(old(World()))))
      ensures r.Returned? ==> AllGo(order, DataInForce(old(World())).contracts, accepts)
      ensures LeftAlone(accepts, DataInForce(old(World())), old(queue), DataInForce(World()), queue)
      ensures Safe(old(World())) ==>
        (r.Returned? <==> Goes(old(World()), atVerify, atLoad, signerIsOwner, order, accepts, effects))
      ensures r == Killed ==> effects < Needed(old(World()), order)
      ensures Safe(old(World())) && r.Returned? ==>
        r == Returned(true) && Finished(Resumed(old(World())), World())
    {
      hide Exec, Finished, Verify, HasMechanism, Safe, Custody, Resumed, Obeys, Known, VerifiedRest, OneRun, AsCalled,
        NoDeploy, LeftAlone, AllGo;
      ghost var base := old(World());
      NothingYet(DataInForce(base), queue, accepts);
      path, budget := Nothing(base), effects;
      ghost var start := Start(atVerify, atLoad, signerIsOwner, order);
      r := VerifyCurrentImplementations(atVerify);
      if r != Returned(true) {
        return if r == Exited then Exited else Failed, path;
      }
      if tmp.Some? && !Accepted(atLoad) {
        return Exited, path;
      }
      var data := if tmp.Some? then tmp.value else current;
      if tmp.None? {
        var alive := Spend();
        if !alive {
          return Killed, path;
        }
        tmp := Some(data);
      }
      path := Extend(base, path, start);
      if !signerIsOwner || |order| == 0 {
        assert order == [] ==> queue == map[];
        return Failed, path;
      }
      var pending := queue;
      assert order[0] in queue;
      r, data, pending, path := UpdateEach(base, path, data, pending, order, accepts, start);
      if r != Returned(true) {
        return;
      }
      var alive;
      alive, path := Commit(base, path, data, pending, start, accepts);
      if !alive {
        return Killed, path;
      }
      r := VerifyCurrentImplementations(atVerify);
      if VerifiedRest(base) {
        RestIsSafe(base);
      }
    }

    /** The three effects for one contract: the transaction, the tmp write, the queue write. */
    method Install(ghost base: System, ghost before: seq<Step>, data0: Deployments, pending0: Queue,
                   name: ContractName, tx: Tx, ghost todo: seq<ContractName>,
                   ghost start: Step, ghost accepts: set<ContractName>)
      returns (alive: bool, data: Deployments, pending: Queue, ghost path: seq<Step>)
      requires NoDeploy(before) && Exec(base, before) == Running(Head, data0, pending0, todo)
      requires before != [] && AsCalled(base, before, start, accepts)
      requires todo != [] && todo[0] == name && name in pending0 && name in data0.contracts && name in accepts
      requires TxFor(name, pending0[name], data0) == Some(tx)
      requires tmp == Some(data0) && queue == pending0
      modifies `tmp, `queue, `chain, `budget
      ensures NoDeploy(path) && path != [] && alive == (old(budget) >= 3)
      ensures AsCalled(base, path, start, accepts)
      ensures Exec(base, path) == if alive then Running(Head, data, pending, todo[1..]) else World()
      ensures alive && OneRun(before) ==> OneRun(path)
      ensures alive ==> budget == old(budget) - 3 && pending == pending0 - {name} == queue && tmp == Some(data)
      ensures data.contracts.Keys == data0.contracts.Keys
      ensures tmp.Some? && OnlyFor(name, data0, pending0, tmp.value, queue)
    {
      hide Exec, Execute, AsCalled, OneRun, TxFor, HasMechanism, NoDeploy, NewRecord;
      MechanismIff(name, pending0[name], data0, data0.contracts);
      data, pending, path := data0, pending0, before;
      alive := Spend();
      if !alive {
        path := Extend(base, path, Crash);
        return;
      }
      chain := Execute(chain, tx);
      path := Extend(base, path, Advance(true));
      alive := Spend();
      if !alive {
        path := Extend(base, path, Crash);
        return;
      }
      data := data.(contracts := data.contracts[name := NewRecord(data.contracts[name], pending[name])]);
      tmp := Some(data);
      path := Extend(base, path, Advance(true));
      alive := Spend();
      if !alive {
        path := Extend(base, path, Crash);
        return;
      }
      pending := pending - {name};
      queue := pending;
      path := Extend(base, path, Advance(true));
    }

    /** The last two effects: write the current file, remove the tmp file. */
    method Commit(ghost base: System, ghost before: seq<Step>, data: Deployments, pending: Queue,
                  ghost start: Step, ghost accepts: set<ContractName>)
      returns (alive: bool, ghost path: seq<Step>)
      requires NoDeploy(before) && Exec(base, before) == Running(Head, data, pending, [])
      requires before != [] && AsCalled(base, before, start, accepts)
      requires tmp == Some(data)
      modifies `current, `tmp, `budget
      ensures NoDeploy(path) && alive == (old(budget) >= 2)
      ensures AsCalled(base, path, start, accepts)
      ensures Exec(base, path) == World()
      ensures alive ==> tmp.None? && current == data
      ensures !alive ==> tmp == old(tmp)
      ensures alive && Safe(base) && Custody(base.current, base.chain) ==>
                Verify(current, tmp, chain) == Verified(true)
      ensures alive && Safe(base) && base.proc.None? && OneRun(before) ==>
                Finished(Resumed(base), World()) && Verify(current, tmp, chain) == Verified(true)
      ensures alive && VerifiedRest(base) ==>
                Finished(base, World()) && Verify(current, tmp, chain) == Verified(true)
    {
      hide Exec, Safe, Custody, VerifiedRest, Finished, Verify, Resumed, AsCalled, OneRun;
      path := before;
      alive := Spend();
      if !alive {
        path := Extend(base, path, Crash);
        return;
      }
      current := data;
      path := Extend(base, path, Advance(true));
      alive := Spend();
      if !alive {
        path := Extend(base, path, Crash);
        return;
      }
      ghost var s := Running(Committed, data, pending, []);
      if VerifiedRest(base) {
        Unlinking(base, path, s);
      }
      if Safe(base) && Custody(base.current, base.chain) {
        UnlinkVerifies(base, path, s);
      }
      if Safe(base) && base.proc.None? && OneRun(path) {
        ResumedUnlinking(base, path, s);
      }
      tmp := None;
      path := Extend(base, path, Advance(true));
    }

    /** The loop over the queue, between the load and the commit. It gets through exactly if
        nothing is refused and the process lives long enough, and touches no contract that the
        chain does not accept. */
    method UpdateEach(ghost base: System, ghost before: seq<Step>, data0: Deployments, pending0: Queue,
                      order: seq<ContractName>, accepts: set<ContractName>, ghost start: Step)
      returns (r: Outcome, data: Deployments, pending: Queue, ghost path: seq<Step>)
      requires NoDeploy(before) && Exec(base, before) == Running(Head, data0, pending0, order)
      requires before != [] && AsCalled(base, before, start, accepts)
      requires NoDuplicates(order) && (forall n :: n in order ==> n in pending0)
      requires tmp == Some(data0) && queue == pending0
      modifies `tmp, `queue, `chain, `budget
      ensures NoDeploy(path) && path != [] && AsCalled(base, path, start, accepts)
      ensures r == Returned(true) ==> Exec(base, path) == Running(Head, data, pending, []) && tmp == Some(data)
      ensures r == Returned(true) && OneRun(before) ==> OneRun(path)
      ensures r != Returned(true) ==> r in {Failed, Killed} && Exec(base, path) == World()
      ensures r == Returned(true) <==>
        AllGo(order, data0.contracts, accepts) && old(budget) >= 3 * Known(order, data0.contracts)
      ensures r == Returned(true) ==> budget == old(budget) - 3 * Known(order, data0.contracts)
      ensures r == Killed ==> old(budget) < 3 * Known(order, data0.contracts)
      ensures tmp.Some? && LeftAlone(accepts, data0, pending0, tmp.value, queue)
    {
      hide Exec, Known, AsCalled, Execute, OneRun, TxFor, HasMechanism, AllGo, LeftAlone, OnlyFor, NoDeploy;
      data, pending, path := data0, pending0, before;
      var i := 0;
      assert order[0..] == order && order[..0] == [];
      NothingYet(data0, pending0, accepts);
      while i < |order|
        invariant 0 <= i <= |order| && NoDeploy(path) && path != []
        invariant AsCalled(base, path, start, accepts) && (OneRun(before) ==> OneRun(path))
        invariant Exec(base, path) == Running(Head, data, pending, order[i..])
        invariant forall n :: n in order[i..] ==> n in pending
        invariant data.contracts.Keys == data0.contracts.Keys
        invariant tmp == Some(data) && queue == pending && LeftAlone(accepts, data0, pending0, data, pending)
        invariant AllGo(order[..i], data0.contracts, accepts)
        invariant budget == old(budget) - 3 * Known(order[..i], data0.contracts)
      {
        var name := order[i];
        ghost var todo := order[i..];
        assert todo[0] == name && todo[1..] == order[i + 1..];
        KnownNext(order, data0.contracts, i);
        AllGoNext(order, data0.contracts, accepts, i);
        if name !in data.contracts {
          path := Extend(base, path, Advance(true));
          i := i + 1;
          continue;
        }
        MechanismIff(name, pending[name], data, data0.contracts);
        var tx := TxFor(name, pending[name], data);
        if tx.None? || name !in accepts {
          path := Extend(base, path, Advance(false));
          return Failed, data, pending, path;
        }
        var alive;
        ghost var dataBefore, pendingBefore := data, pending;
        alive, data, pending, path := Install(base, path, data, pending, name, tx.value, todo, start, accepts);
        LeftAloneNext(accepts, data0, pending0, dataBefore, pendingBefore, name, tmp.value, queue);
        if !alive {
          return Killed, data, pending, path;
        }
        i := i + 1;
      }
      assert order[i..] == [] && order[..i] == order;
      r := Returned(true);
    }
  }

  /** Nothing but `name` has another record or has left the queue. */
  ghost predicate OnlyFor(name: ContractName, data0: Deployments, pending0: Queue, data: Deployments, pending: Queue) {
    && (forall n :: n in data0.contracts && n != name ==>
          n in data.contracts && data.contracts[n] == data0.contracts[n])
    && (forall n :: n in pending0 && n != name ==> n in pending && pending[n] == pending0[n])
  }

  /** No contract outside `accepts` has another record or has left the queue. */
  ghost predicate LeftAlone(accepts: set<ContractName>, data0: Deployments, pending0: Queue,
                            data: Deployments, pending: Queue)
  {
    forall n :: n in data0.contracts && n !in accepts ==>
      && n in data.contracts && data.contracts[n] == data0.contracts[n]
      && (n in pending0 ==> n in pending && pending[n] == pending0[n])
  }

  lemma NothingYet(data: Deployments, pending: Queue, accepts: set<ContractName>)
    ensures Known([], data.contracts) == 0 && AllGo([], data.contracts, accepts)
    ensures LeftAlone(accepts, data, pending, data, pending)
  {
  }

  lemma AllGoNext(order: seq<ContractName>, c: map<ContractName, Record>, accepts: set<ContractName>, i: nat)
    requires i < |order|
    ensures var n := order[i];
            var goes := n in c ==> n in accepts && HasMechanism(n, c);
      && (AllGo(order[..i + 1], c, accepts) <==> AllGo(order[..i], c, accepts) && goes)
      && (AllGo(order, c, accepts) ==> goes)
  {
    assert order[..i + 1] == order[..i] + [order[i]];
  }

  lemma LeftAloneNext(accepts: set<ContractName>, data0: Deployments, pending0: Queue, data: Deployments, pending: Queue,
                      name: ContractName, data': Deployments, pending': Queue)
    requires LeftAlone(accepts, data0, pending0, data, pending) && name in accepts
    requires OnlyFor(name, data, pending, data', pending')
    ensures LeftAlone(accepts, data0, pending0, data', pending')
  {
  }

  /** The records that an upgrade reads are there exactly if there is a transaction for it. */
  lemma MechanismIff(name: ContractName, u: QueuedUpdate, d: Deployments, c: map<ContractName, Record>)
    requires name in d.contracts && c.Keys == d.contracts.Keys
    ensures TxFor(name, u, d).Some? <==> HasMechanism(name, d.contracts)
    ensures HasMechanism(name, c) == HasMechanism(name, d.contracts)
  {
  }

  ghost predicate VerifiedRest(s: System) {
    && s.proc.None? && s.tmp.None? && DistinctSlots(s.current.contracts)
    && Verify(s.current, s.tmp, s.chain) == Verified(true)
  }

  /** The records in force, as a state to start from: what a resumed run resumes. */
  function Resumed(s: System): System { s.(current := DataInForce(s), tmp := None) }

  /** A start and then nothing but its own progress. */
  predicate OneRun(path: seq<Step>) {
    path != [] && path[0].Start? && forall i :: 0 < i < |path| ==> path[i].Advance?
  }

  /** The empty history. */
  ghost function Nothing(base: System): (path: seq<Step>)
    ensures Exec(base, path) == base && NoDeploy(path) && path == []
    ensures forall start, accepts :: AsCalled(base, path, start, accepts)
  {
    []
  }

  /** The step is the next one of the call. */
  ghost predicate Fits(base: System, path: seq<Step>, step: Step, start: Step, accepts: set<ContractName>) {
    && AsCalled(base, path, start, accepts)
    && if path == [] then step == start else Obeys(Exec(base, path), step, accepts)
  }

  /** A history, one step longer. */
  ghost function Extend(base: System, path: seq<Step>, step: Step): (longer: seq<Step>)
    ensures Exec(base, longer) == Next(Exec(base, path), step) && longer != []
    ensures OneRun(path) && step.Advance? ==> OneRun(longer)
    ensures path == [] && step.Start? ==> OneRun(longer)
    ensures NoDeploy(path) && !step.Enqueue? ==> NoDeploy(longer)
    ensures forall start, accepts ::
      Fits(base, path, step, start, accepts) ==>
        AsCalled(base, longer, start, accepts)
  {
    ExecSnoc(base, path, step);
    CalledSnoc(base, path, step);
    path + [step]
  }

  lemma CalledSnoc(base: System, path: seq<Step>, step: Step)
    ensures forall start, accepts ::
      Fits(base, path, step, start, accepts) ==>
        AsCalled(base, path + [step], start, accepts)
  {
    hide Obeys, Exec;
    var longer := path + [step];
    assert longer[..|path|] == path;
    forall start, accepts |
      Fits(base, path, step, start, accepts)
      ensures AsCalled(base, longer, start, accepts)
    {
      forall i | 0 < i < |longer|
        ensures Obeys(Exec(base, longer[..i]), longer[i], accepts)
      {
        if i < |path| {
          assert longer[..i] == path[..i];
        }
      }
    }
  }

  /** A verified rest is such a state, and resumes itself. */
  lemma RestIsSafe(s: System)
    requires VerifiedRest(s)
    ensures Safe(s) && Resumed(s) == s
  {
    VerifiedIff(s.current, s.tmp, s.chain);
    RestedSafe(s);
  }

  /** What verification lets start is a verified rest, once the records in force are taken as
      the current ones. */
  lemma StartsFromRest(s: System)
    requires Safe(s) && s.proc.None? && Verify(s.current, s.tmp, s.chain) == Verified(true)
    ensures VerifiedRest(Resumed(s))
  {
    VerifiedIff(s.current, s.tmp, s.chain);
    CustodyOfLayout(s.current, DataInForce(s), s.chain, s.chain);
    forall n | n in s.current.contracts
      ensures SlotOf(n, DataInForce(s).contracts) == SlotOf(n, s.current.contracts)
    {
      SameSlots(DataInForce(s), s.current, n);
    }
    VerifiedIff(DataInForce(s), None, s.chain);
  }

  /** `t` is where `r` is, with the records in force at the start `s` as the current ones;
      after the commit that makes no difference. */
  ghost predicate Alike(s: System, r: System, t: System) {
    r.proc.Some? ==>
      VerifiedRest(Resumed(s)) && t == if r.proc.value.pc == Committed then r else r.(current := DataInForce(s))
  }

  lemma StartAlike(s: System, start: Step)
    requires Safe(s) && s.proc.None? && start.Start?
    ensures Alike(s, Next(s, start), Next(Resumed(s), start))
  {
    hide Safe, VerifiedRest;
    if Next(s, start).proc.Some? {
      StartsFromRest(s);
      RestVerifies(Resumed(s));
    }
  }

  lemma RestVerifies(s: System)
    requires VerifiedRest(s)
    ensures s.proc.None? && s.tmp.None? && Verify(s.current, None, s.chain) == Verified(true)
  {
  }

  lemma AdvanceAlike(s: System, r: System, t: System, step: Step)
    requires Alike(s, r, t) && step.Advance?
    ensures Alike(s, Next(r, step), Next(t, step))
  {
    hide VerifiedRest, Resumed, TxFor, Execute;
  }

  /** A resumed run goes as it would if the tmp file had been the current file. */
  lemma {:induction false} ResumedAlike(s: System, path: seq<Step>)
    requires Safe(s) && s.proc.None? && OneRun(path)
    ensures Alike(s, Exec(s, path), Exec(Resumed(s), path))
    decreases |path|
  {
    hide Alike, Safe, Next, Resumed;
    var init, last := path[..|path| - 1], path[|path| - 1];
    if init == [] {
      StartAlike(s, last);
      ExecSnoc(s, [], last);
      ExecSnoc(Resumed(s), [], last);
      assert [] + [last] == path;
    } else {
      ResumedAlike(s, init);
      AdvanceAlike(s, Exec(s, init), Exec(Resumed(s), init), last);
    }
  }

  lemma ResumedUnlinking(base: System, path: seq<Step>, s: System)
    requires Safe(base) && base.proc.None? && NoDeploy(path) && OneRun(path) && Exec(base, path) == s
    requires s.proc.Some? && s.proc.value.pc == Committed
    ensures var r := Next(s, Advance(true));
            Finished(Resumed(base), r) && Verify(r.current, r.tmp, r.chain) == Verified(true)
  {
    ResumedAlike(base, path);
    Unlinking(Resumed(base), path, s);
  }

  /** After any history, a run that gets to its end leaves what verification accepts. */
  lemma UnlinkVerifies(base: System, path: seq<Step>, s: System)
    requires Safe(base) && Custody(base.current, base.chain) && Exec(base, path) == s
    requires s.proc.Some? && s.proc.value.pc == Committed
    ensures var r := Next(s, Advance(true)); Verify(r.current, r.tmp, r.chain) == Verified(true)
  {
    var r := Next(s, Advance(true));
    LayoutForever(base, path);
    CustodyOfLayout(base.current, s.current, base.chain, s.chain);
    UnlinkMatches(s, Advance(true));
    NothingMismatched(r);
    VerifiedIff(r.current, r.tmp, r.chain);
  }

  lemma Unlinking(base: System, path: seq<Step>, s: System)
    requires VerifiedRest(base) && NoDeploy(path) && Exec(base, path) == s
    requires s.proc.Some? && s.proc.value.pc == Committed
    ensures var r := Next(s, Advance(true));
            Finished(base, r) && Verify(r.current, r.tmp, r.chain) == Verified(true)
  {
    VerifiedIff(base.current, base.tmp, base.chain);
    BetweenForever(base, path);
    BetweenUnlink(base, s, s.proc.value);
    FinishedVerifies(base, Next(s, Advance(true)));
  }

  // ------------------------------------------------- deploying everything, then updating

  /** One request per recorded contract, on the right layer, agreed to and deployed. */
  ghost predicate DeploysAll(requests: seq<Request>, c: map<ContractName, Record>, layer: nat) {
    && (forall i, j :: 0 <= i < j < |requests| ==> requests[i].name != requests[j].name)
    && (forall i :: 0 <= i < |requests| ==> requests[i].name in c)
    && (forall n :: n in c ==> exists i :: 0 <= i < |requests| && requests[i].name == n)
    && (forall i :: 0 <= i < |requests| ==>
          requests[i].redeploy && requests[i].receipt.Some? && GetLayer(requests[i].name) == layer)
  }

  /** Deployments that all succeed queue each contract under the address deployed for it. */
  lemma {:induction false} DeployedAll(queue: Queue, requests: seq<Request>, layer: nat)
    requires forall i, j :: 0 <= i < j < |requests| ==> requests[i].name != requests[j].name
    requires forall i :: 0 <= i < |requests| ==>
      requests[i].redeploy && requests[i].receipt.Some? && GetLayer(requests[i].name) == layer
    ensures var (q, ok) := Deployed(queue, requests, layer);
      && ok
      && (forall i :: 0 <= i < |requests| ==> requests[i].name in q && q[requests[i].name] == requests[i].receipt.value)
      && (forall n :: n in queue && (forall i :: 0 <= i < |requests| ==> requests[i].name != n) ==>
            n in q && q[n] == queue[n])
      && (forall n :: n in q ==> n in queue || exists i :: 0 <= i < |requests| && requests[i].name == n)
    decreases |requests|
  {
    if requests == [] {
    } else {
      var queue', rest := queue[requests[0].name := requests[0].receipt.value], requests[1..];
      DeployedAll(queue', rest, layer);
      var (q, ok) := Deployed(queue', rest, layer);
      forall i | 0 <= i < |requests|
        ensures requests[i].name in q && q[requests[i].name] == requests[i].receipt.value
      {
        if i > 0 {
          assert rest[i - 1] == requests[i];
        }
      }
      forall n | n in q && n !in queue
        ensures exists i :: 0 <= i < |requests| && requests[i].name == n
      {
        if n == requests[0].name {
        } else {
          var i :| 0 <= i < |rest| && rest[i].name == n;
          assert requests[i + 1].name == n;
        }
      }
    }
  }

  /** `name` has left the queue, and runs and records exactly what was deployed as `u`. */
  predicate Installed(s: System, r: System, name: ContractName, u: QueuedUpdate) {
    && name in s.current.contracts && name in r.current.contracts && name !in r.queue
    && Carries(r.current.contracts[name], s.current.contracts[name].proxy, u)
    && var slot := SlotOf(name, r.current.contracts);
       slot.Some? && r.chain.Read(slot.value) == u.address
  }

  function WithQueue(s: System, queue: Queue): System { s.(queue := queue) }

  lemma AllInstalled(b: System, r: System, requests: seq<Request>)
    requires Finished(b, r)
    requires forall i :: 0 <= i < |requests| ==>
      && requests[i].receipt.Some? && requests[i].name in b.current.contracts
      && requests[i].name in b.queue && b.queue[requests[i].name] == requests[i].receipt.value
    ensures forall i :: 0 <= i < |requests| ==> Installed(b, r, requests[i].name, requests[i].receipt.value)
  {
  }

  /** `deployLogicAll` and then an update, from a verified rest: every recorded contract runs
      exactly the logic deployed for it, on the same proxy, and none is left in the queue --
      whatever was queued before. */
  lemma DeployAllThenUpdate(s: System, requests: seq<Request>, layer: nat, order: seq<ContractName>)
    requires VerifiedRest(s) && s.current.contracts != map[]
    requires DeploysAll(requests, s.current.contracts, layer)
    requires forall n :: n in s.current.contracts ==> HasMechanism(n, s.current.contracts)
    requires IsOrder(order, Deployed(s.queue, requests, layer).0.Keys)
    ensures var r := Exec(WithQueue(s, Deployed(s.queue, requests, layer).0), FullRun(order));
      && r.tmp.None? && r.current.contracts.Keys == s.current.contracts.Keys
      && forall i :: 0 <= i < |requests| ==> Installed(s, r, requests[i].name, requests[i].receipt.value)
  {
    var queue := Deployed(s.queue, requests, layer).0;
    DeployedAll(s.queue, requests, layer);
    var some :| some in s.current.contracts;
    var at :| 0 <= at < |requests| && requests[at].name == some;
    assert some in queue;
    hide Exec, FullRun, Deployed, Finished, Verify, HasMechanism;
    var b := WithQueue(s, queue);
    UpdateSucceeds(b, order);
    var r := Exec(b, FullRun(order));
    AllInstalled(b, r, requests);
    FinishedKeys(b, r);
  }

  lemma FinishedKeys(b: System, r: System)
    requires Finished(b, r)
    ensures r.tmp.None? && r.current.contracts.Keys == b.current.contracts.Keys
  {
  }
}
