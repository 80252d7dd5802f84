/**
 The manager of one Firecracker process: a validated lifecycle and a slot for the process. Every call
 out of the program (files, processes, the Firecracker API) succeeds or fails as a parameter says.
 */
module VmManagement {
  import opened Options

  datatype VmState = NotStarted | Starting | Running | Stopping | Stopped | Error

  /** The edges of the lifecycle; staying put is always allowed. */
  predicate Allowed(from: VmState, to: VmState) {
    || to == Error
    || ((from == NotStarted || from == Stopped) && to == Starting)
    || (from == Starting && (to == Running || to == Stopping || to == Stopped))
    || (from == Running && to == Stopping)
    || (from == Stopping && to == Stopped)
    || from == to
  }

  /** The error state is final, a VM runs only when it was starting, and no VM becomes one never started. */
  lemma LifecycleLaws(from: VmState, to: VmState)
    ensures Allowed(from, from) && Allowed(from, Error)
    ensures Allowed(Error, to) ==> to == Error
    ensures Allowed(from, NotStarted) ==> from == NotStarted
    ensures Allowed(from, Running) && from != Running ==> from == Starting
    ensures Allowed(from, Starting) && from != Starting ==> from == NotStarted || from == Stopped
    ensures Allowed(from, Stopping) && from != Stopping ==> from == Starting || from == Running
    ensures Allowed(from, Stopped) && from != Stopped ==> from == Starting || from == Stopping
    ensures Allowed(NotStarted, Starting) && Allowed(Starting, Running) && Allowed(Running, Stopping)
    ensures Allowed(Stopping, Stopped) && Allowed(Stopped, Starting) && Allowed(Starting, Stopping) && Allowed(Starting, Stopped)
  {
  }

  class VmLifecycle {
    var state: VmState

    constructor ()
      ensures state == NotStarted
    {
      state := NotStarted;
    }

    method TransitionTo(next: VmState) returns (r: Result<()>)
      modifies this
      ensures r == if Allowed(old(state), next) then Ok(()) else Err
      ensures state == if r.Ok? then next else old(state)
    {
      if !Allowed(state, next) {
        return Err;
      }
      state := next;
      return Ok(());
    }
  }

  /** A process is known by the number of processes spawned before it. */
  type Pid = nat

  /** The manager's value: lifecycle, slot, how many processes it spawned, and those it took out to kill. */
  datatype Vm = Vm(state: VmState, process: Option<Pid>, spawned: nat, taken: set<Pid>)

  const FRESH := Vm(NotStarted, None, 0, {})

  /** How far the calls of one `start` get; `cleared` also when there is no stale socket file. */
  datatype Faults = Faults(valid: bool, cleared: bool, spawns: bool, ready: bool, configured: bool, launched: bool)

  predicate NoFault(f: Faults) {
    f.valid && f.cleared && f.spawns && f.ready && f.configured && f.launched
  }

  function AfterStart(v: Vm, f: Faults): (Result<()>, Vm) {
    if !f.valid || !Allowed(v.state, Starting) then (Err, v)
    else if !f.cleared || !f.spawns then (Err, v.(state := Starting))
    else
      var up := v.(state := Starting, process := Some(v.spawned), spawned := v.spawned + 1);
      if f.ready && f.configured && f.launched then (Ok(()), up.(state := Running)) else (Err, up)
  }

  function AfterStop(v: Vm): (Result<()>, Vm) {
    var mid := if Allowed(v.state, Stopping) then Stopping else v.state;
    var idle := v.(state := mid, process := None, taken := v.taken + Held(v));
    if Allowed(mid, Stopped) then (Ok(()), idle.(state := Stopped)) else (Err, idle)
  }

  function Held(v: Vm): set<Pid> {
    if v.process.Some? then {v.process.value} else {}
  }

  class VmManager {
    const lifecycle: VmLifecycle
    var process: Option<Pid>
    var spawned: nat
    var taken: set<Pid>

    ghost function Value(): Vm
      reads this, lifecycle
    {
      Vm(lifecycle.state, process, spawned, taken)
    }

    constructor ()
      ensures fresh(lifecycle) && Value() == FRESH
    {
      lifecycle := new VmLifecycle();
      process := None;
      spawned := 0;
      taken := {};
    }

    method Start(f: Faults) returns (r: Result<()>)
      modifies this, lifecycle
      ensures (r, Value()) == AfterStart(old(Value()), f)
    {
      if !f.valid {
        return Err;
      }
      r := lifecycle.TransitionTo(Starting);
      if r.Err? {
        return;
      }
      if !f.cleared || !f.spawns {
        return Err;
      }
      process := Some(spawned);
      spawned := spawned + 1;
      if !f.ready || !f.configured || !f.launched {
        return Err;
      }
      r := lifecycle.TransitionTo(Running);
    }

    method Stop() returns (r: Result<()>)
      modifies this, lifecycle
      ensures (r, Value()) == AfterStop(old(Value()))
    {
      r := lifecycle.TransitionTo(Stopping);
      assert taken + {} == taken;
      if process.Some? {
        taken := taken + {process.value};
        process := None;
      }
      r := lifecycle.TransitionTo(Stopped);
    }
  }

  // ----- Runs of completed calls -----

  datatype Call = Start(faults: Faults) | Stop

  function After(v: Vm, c: Call): Vm {
    match c
    case Start(f) => AfterStart(v, f).1
    case Stop => AfterStop(v).1
  }

  function Run(calls: seq<Call>): Vm {
    if calls == [] then FRESH else After(Run(calls[..|calls| - 1]), calls[|calls| - 1])
  }

  /** What holds between calls. */
  ghost predicate Resting(v: Vm) {
    && v.state != Stopping && v.state != Error
    && (v.state == Running ==> v.process.Some?)
    && (v.state == NotStarted || v.state == Stopped ==> v.process.None?)
    && (v.process.Some? ==> v.process.value < v.spawned && v.process.value !in v.taken)
    && forall p :: p in v.taken ==> p < v.spawned
  }

  lemma RestingStep(v: Vm, c: Call)
    requires Resting(v)
    ensures Resting(After(v, c))
  {
  }

  /**
   After any completed calls with any faults: a running VM holds its process, one that is not started or
   stopped holds none, and no VM is left stopping or in the error state.
   */
  lemma {:induction false} RunsRest(calls: seq<Call>)
    ensures Resting(Run(calls))
    decreases |calls|
  {
    if calls != [] {
      RunsRest(calls[..|calls| - 1]);
      RestingStep(Run(calls[..|calls| - 1]), calls[|calls| - 1]);
    }
  }

  /** `stop` after any run: it succeeds exactly when the VM was started once, and always empties the slot. */
  lemma StopAfterRun(calls: seq<Call>)
    ensures var v := Run(calls);
            var (r, v') := AfterStop(v);
            && (r.Ok? <==> v.state != NotStarted)
            && v'.process.None?
            && v'.state == (if v.state == NotStarted then NotStarted else Stopped)
            && v'.taken == v.taken + Held(v)
  {
    RunsRest(calls);
  }

  /** `start` after any run: it succeeds exactly when no call fails and the VM is not running already. */
  lemma StartAfterRun(calls: seq<Call>, f: Faults)
    ensures var v := Run(calls);
            var (r, v') := AfterStart(v, f);
            && (r.Ok? <==> v.state != Running && NoFault(f))
            && (v.state == Running ==> v' == v)
            && (r.Ok? ==> v'.state == Running && v'.process == Some(v.spawned) && v'.spawned == v.spawned + 1)
            && (r.Err? && (v.state == Running || !f.valid) ==> v' == v)
            && (r.Err? && v.state != Running && f.valid ==> v'.state == Starting && v'.taken == v.taken)
            && (r.Err? && v.state != Running && f.valid ==>
                  if f.cleared && f.spawns then v'.process == Some(v.spawned) && v'.spawned == v.spawned + 1
                  else v'.process == v.process && v'.spawned == v.spawned)
  {
    RunsRest(calls);
  }

  // ----- Processes that get lost -----

  /** A second `start` of a VM whose first one failed with its process up replaces that process in the slot. */
  predicate Overwrites(v: Vm, c: Call) {
    c.Start? && v.state == Starting && v.process.Some? && c.faults.valid && c.faults.cleared && c.faults.spawns
  }

  function Overwritten(calls: seq<Call>): set<Pid> {
    if calls == [] then {}
    else
      var n := |calls| - 1;
      var v := Run(calls[..n]);
      Overwritten(calls[..n]) + if Overwrites(v, calls[n]) then Held(v) else {}
  }

  /** Each process spawned is accounted for once: in the slot, taken out to be killed, or overwritten. */
  ghost predicate Accounted(v: Vm, lost: set<Pid>) {
    && (forall p: Pid :: p < v.spawned <==> p in Held(v) || p in v.taken || p in lost)
    && Held(v) !! v.taken && Held(v) !! lost && v.taken !! lost
  }

  lemma AccountedStep(v: Vm, c: Call, lost: set<Pid>)
    requires Resting(v) && Accounted(v, lost)
    ensures Accounted(After(v, c), lost + if Overwrites(v, c) then Held(v) else {})
  {
    if c.Start? {
      assert AfterStart(v, c.faults).1.spawned <= v.spawned + 1;
    }
  }

  lemma {:induction false} ProcessesAreAccounted(calls: seq<Call>)
    ensures Accounted(Run(calls), Overwritten(calls))
    decreases |calls|
  {
    if calls != [] {
      var n := |calls| - 1;
      RunsRest(calls[..n]);
      ProcessesAreAccounted(calls[..n]);
      AccountedStep(Run(calls[..n]), calls[n], Overwritten(calls[..n]));
    }
  }

  /** Process `p` was spawned, and is neither in the slot nor taken out to be killed. */
  ghost predicate IsLost(v: Vm, p: Pid) {
    p < v.spawned && p !in Held(v) && p !in v.taken
  }

  ghost predicate LosesOne(v: Vm) {
    exists p: Pid :: IsLost(v, p)
  }

  /** The lost processes are the overwritten ones. */
  lemma LostAreOverwritten(calls: seq<Call>, p: Pid)
    ensures IsLost(Run(calls), p) <==> p in Overwritten(calls)
  {
    ProcessesAreAccounted(calls);
  }

  // ----- in terms of the calls alone -----

  /** The calls since the last `stop`. */
  function SinceStop(calls: seq<Call>): seq<Call> {
    if calls == [] || calls[|calls| - 1].Stop? then []
    else SinceStop(calls[..|calls| - 1]) + [calls[|calls| - 1]]
  }

  /** A `start` whose calls get as far as the new process. */
  predicate Spawns(c: Call) {
    c.Start? && c.faults.valid && c.faults.cleared && c.faults.spawns
  }

  predicate Succeeds(c: Call) {
    c.Start? && NoFault(c.faults)
  }

  ghost predicate SomeSpawns(calls: seq<Call>) {
    exists i :: 0 <= i < |calls| && Spawns(calls[i])
  }

  ghost predicate SomeSucceeds(calls: seq<Call>) {
    exists i :: 0 <= i < |calls| && Succeeds(calls[i])
  }

  lemma SomeOfMore(calls: seq<Call>, c: Call)
    ensures SomeSpawns(calls + [c]) <==> SomeSpawns(calls) || Spawns(c)
    ensures SomeSucceeds(calls + [c]) <==> SomeSucceeds(calls) || Succeeds(c)
  {
    var more := calls + [c];
    assert more[|calls|] == c;
    assert forall i :: 0 <= i < |calls| ==> more[i] == calls[i];
  }

  /** What a caller can tell from its calls: whether the VM runs, and whether a process is up. */
  lemma {:induction false} StateByCalls(calls: seq<Call>)
    ensures Run(calls).state == Running <==> SomeSucceeds(SinceStop(calls))
    ensures Run(calls).process.Some? <==> SomeSpawns(SinceStop(calls))
    decreases |calls|
  {
    if calls != [] {
      var n := |calls| - 1;
      RunsRest(calls[..n]);
      StateByCalls(calls[..n]);
      SomeOfMore(SinceStop(calls[..n]), calls[n]);
    }
  }

  /** Call `j` spawns a process while one is up from a `start` since the last `stop`, none of which succeeded. */
  ghost predicate SpawnsAgain(calls: seq<Call>, j: nat) {
    && j < |calls| && Spawns(calls[j])
    && SomeSpawns(SinceStop(calls[..j])) && !SomeSucceeds(SinceStop(calls[..j]))
  }

  lemma LosesStep(v: Vm, c: Call)
    requires Resting(v)
    ensures LosesOne(After(v, c)) <==> LosesOne(v) || Overwrites(v, c)
  {
    var v' := After(v, c);
    assert forall p: Pid :: IsLost(v, p) ==> IsLost(v', p);
    if Overwrites(v, c) {
      assert IsLost(v', v.process.value);
    } else {
      assert forall p: Pid :: IsLost(v', p) ==> IsLost(v, p);
    }
  }

  /**
   A run loses track of a process exactly when, with no `stop` in between, it starts the VM again after
   starts that spawned a process and did not succeed.
   */
  lemma {:induction false} LostIff(calls: seq<Call>)
    ensures LosesOne(Run(calls)) <==> exists j :: SpawnsAgain(calls, j)
    decreases |calls|
  {
    if calls != [] {
      var n := |calls| - 1;
      var front := calls[..n];
      RunsRest(front);
      StateByCalls(front);
      LosesStep(Run(front), calls[n]);
      assert SpawnsAgain(calls, n) <==> Overwrites(Run(front), calls[n]);
      LostIff(front);
      assert forall j: nat :: j < n ==> front[..j] == calls[..j];
      assert forall j: nat :: j < n ==> (SpawnsAgain(front, j) <==> SpawnsAgain(calls, j));
    }
  }

  /** A caller that answers every faulty start with `stop` never loses a process. */
  lemma CarefulCallersLoseNothing(calls: seq<Call>)
    requires forall i :: 0 <= i < |calls| - 1 && calls[i].Start? && !NoFault(calls[i].faults) ==> calls[i + 1].Stop?
    ensures !LosesOne(Run(calls))
  {
    LostIff(calls);
    forall j: nat | j < |calls| && SomeSpawns(SinceStop(calls[..j])) && !SomeSucceeds(SinceStop(calls[..j]))
      ensures !Spawns(calls[j])
    {
      var w := SinceStop(calls[..j]);
      assert w[|w| - 1] == calls[j - 1];
    }
  }

  /** Two starts whose first fails while it waits for the socket. */
  lemma SecondStartLoses(f: Faults)
    requires NoFault(f)
    ensures IsLost(Run([Start(f.(ready := false)), Start(f)]), 0)
  {
    var first := Start(f.(ready := false));
    var calls := [first, Start(f)];
    assert calls[..1] == [first] && [first][..0] == [];
    assert Run([first]) == After(FRESH, first);
  }
}
