/**
 * Starting and stopping the relay worker: the lock, the flag and the two channels of
 * internal/service/audit/relay.go.
 */
module RelayWorker {
  import opened Common

  /**
   * What the lock protects: the flag, and for every worker started so far how often its stop
   * channel has been closed. The service's current channels are always the last worker's.
   */
  datatype Flags = Flags(running: bool, stops: seq<nat>)

  function Started(f: Flags): Flags { Flags(true, f.stops + [0]) }

  /** Clear the flag and close the current stop channel. */
  function Stopped(f: Flags): Flags
    requires f.stops != []
  {
    Flags(false, f.stops[|f.stops| - 1 := f.stops[|f.stops| - 1] + 1])
  }

  /** The flag is set exactly when a current stop channel exists and is open; every earlier one is closed, once. */
  predicate FlagsOk(f: Flags) {
    && (f.running <==> f.stops != [] && f.stops[|f.stops| - 1] == 0)
    && (forall i :: 0 <= i < |f.stops| - 1 ==> f.stops[i] == 1)
    && (f.stops != [] ==> f.stops[|f.stops| - 1] <= 1)
  }

  // ------------------------------------------------------------ the service

  class Channel {
    var closed: bool

    constructor ()
      ensures !closed
    {
      closed := false;
    }

    /** Closing a closed channel panics, so every call must show that it is open. */
    method Close()
      requires !closed
      modifies this
      ensures closed
    {
      closed := true;
    }
  }

  /** The critical sections of the service, each run under its mutex. */
  class RelayService {
    var running: bool
    var stopChan: Channel?
    var workerDone: Channel?
    /** The stop channels of all workers started so far, the current one last. */
    ghost var stops: seq<Channel>
    /** The same, as the lock's abstract state. */
    ghost var flags: Flags

    ghost predicate Valid()
      reads this, stops
    {
      && (if stops == [] then stopChan == null && workerDone == null
          else stopChan == stops[|stops| - 1] && workerDone != null)
      && (forall i :: 0 <= i < |stops| - 1 ==> stops[i] != stops[|stops| - 1])
      && flags.running == running && |flags.stops| == |stops|
      && (forall i :: 0 <= i < |stops| ==> flags.stops[i] == if stops[i].closed then 1 else 0)
      && FlagsOk(flags)
    }

    constructor ()
      ensures Valid() && flags == Flags(false, [])
    {
      running := false;
      stopChan := null;
      workerDone := null;
      stops := [];
      flags := Flags(false, []);
    }

    method StartWorker() returns (ok: bool)
      requires Valid()
      modifies this
      ensures Valid() && ok == !old(running)
      ensures flags == if ok then Started(old(flags)) else old(flags)
      ensures ok ==> fresh(stopChan) && fresh(workerDone) && !workerDone.closed
      ensures !ok ==> stopChan == old(stopChan) && workerDone == old(workerDone)
    {
      if running {
        return false;
      }
      running := true;
      var stop := new Channel();
      var done := new Channel();
      stopChan := stop;
      workerDone := done;
      stops := stops + [stop];
      flags := Started(flags);
      ok := true;
    }

    /** The locked part of `StopWorker`; the caller then waits on the channel it returns. */
    method StopWorker() returns (wait: Channel?)
      requires Valid()
      modifies this`running, this`flags, stopChan
      ensures Valid() && wait == workerDone
      ensures flags == if old(running) then Stopped(old(flags)) else old(flags)
    {
      wait := workerDone;
      if !running {
        return;
      }
      running := false;
      stopChan.Close();
      flags := Stopped(flags);
    }

    /** `stopWorker`, called by a worker whose context is done. */
    method StopFromWorker()
      requires Valid()
      modifies this`running, this`flags, stopChan
      ensures Valid()
      ensures flags == if old(running) then Stopped(old(flags)) else old(flags)
    {
      if running {
        running := false;
        stopChan.Close();
        flags := Stopped(flags);
      }
    }
  }

  // ---------------------------------------------------------- interleavings

  /** Where a worker goroutine is. */
  datatype Pc = Working | Cancelled | Leaving | Exited

  /** A `StopWorker` call after its locked part: the worker it waits for, if any. */
  datatype Stopper = Waiting(target: Option<nat>) | Returned(target: Option<nat>)

  /** `dones` counts how often each worker's done channel has been closed. */
  datatype State = State(flags: Flags, pcs: seq<Pc>, dones: seq<nat>, stoppers: map<nat, Stopper>)

  const INITIAL := State(Flags(false, []), [], [], map[])

  datatype Action =
    | Start
    | Stop(k: nat)          // locked part of StopWorker
    | Return(k: nat)        // StopWorker returns
    | SeeCancel(i: nat)     // worker i selects ctx.Done
    | Cancel(i: nat)        // worker i calls stopWorker
    | SeeStop(i: nat)       // worker i selects its stop channel
    | Exit(i: nat)          // worker i closes its done channel

  function StopIfRunning(f: Flags): Flags { if f.running && f.stops != [] then Stopped(f) else f }

  predicate Enabled(s: State, a: Action) {
    match a
    case Start => true
    case Stop(k) => k !in s.stoppers
    case Return(k) =>
      && k in s.stoppers && s.stoppers[k].Waiting?
      && (s.stoppers[k].target.Some? ==>
           s.stoppers[k].target.value < |s.pcs| && s.pcs[s.stoppers[k].target.value] == Exited)
    case SeeCancel(i) => i < |s.pcs| && s.pcs[i] == Working
    case Cancel(i) => i < |s.pcs| && s.pcs[i] == Cancelled
    case SeeStop(i) => i < |s.pcs| && s.pcs[i] == Working && i < |s.flags.stops| && s.flags.stops[i] > 0
    case Exit(i) => i < |s.pcs| && i < |s.dones| && s.pcs[i] == Leaving
  }

  function Apply(s: State, a: Action): State
    requires Enabled(s, a)
  {
    match a
    case Start =>
      if s.flags.running then s else s.(flags := Started(s.flags), pcs := s.pcs + [Working], dones := s.dones + [0])
    case Stop(k) =>
      var target := if s.pcs == [] then None else Some(|s.pcs| - 1);
      s.(flags := StopIfRunning(s.flags), stoppers := s.stoppers[k := Waiting(target)])
    case Return(k) => s.(stoppers := s.stoppers[k := Returned(s.stoppers[k].target)])
    case SeeCancel(i) => s.(pcs := s.pcs[i := Cancelled])
    case Cancel(i) => s.(flags := StopIfRunning(s.flags), pcs := s.pcs[i := Leaving])
    case SeeStop(i) => s.(pcs := s.pcs[i := Leaving])
    case Exit(i) => s.(pcs := s.pcs[i := Exited], dones := s.dones[i := s.dones[i] + 1])
  }

  ghost predicate IsRun(states: seq<State>, actions: seq<Action>) {
    && |states| == |actions| + 1
    && states[0] == INITIAL
    && forall i :: 0 <= i < |actions| ==>
         Enabled(states[i], actions[i]) && states[i + 1] == Apply(states[i], actions[i])
  }

  predicate Inv(s: State) {
    && FlagsOk(s.flags) && |s.pcs| == |s.flags.stops| == |s.dones|
    && (forall i :: 0 <= i < |s.pcs| ==> s.dones[i] == if s.pcs[i] == Exited then 1 else 0)
    && (forall k :: k in s.stoppers && s.stoppers[k].target.Some? ==>
         s.stoppers[k].target.value < |s.pcs| && s.flags.stops[s.stoppers[k].target.value] == 1)
    && (forall k :: k in s.stoppers && s.stoppers[k].Returned? && s.stoppers[k].target.Some? ==>
         s.pcs[s.stoppers[k].target.value] == Exited)
  }

  /** Stopping leaves every earlier channel as it was and the current one closed. */
  lemma StopIsOk(f: Flags)
    requires FlagsOk(f)
    ensures var g := StopIfRunning(f);
            && FlagsOk(g) && |g.stops| == |f.stops| && !g.running
            && (forall i :: 0 <= i < |f.stops| ==> g.stops[i] == 1)
  {
  }

  lemma StepKeepsInv(s: State, a: Action)
    requires Inv(s) && Enabled(s, a)
    ensures Inv(Apply(s, a))
  {
    if a.Stop? || a.Cancel? { StopIsOk(s.flags); }
  }

  lemma {:induction false} RunKeepsInv(states: seq<State>, actions: seq<Action>, n: nat)
    requires IsRun(states, actions) && n < |states|
    ensures Inv(states[n])
  {
    if n > 0 {
      RunKeepsInv(states, actions, n - 1);
      StepKeepsInv(states[n - 1], actions[n - 1]);
    }
  }

  /**
   * In every interleaving the flag is set exactly when a current stop channel exists and is open, no stop
   * or done channel is closed twice, at most one stop channel is open, and a done channel is closed
   * exactly when its worker has exited.
   */
  lemma ChannelsCloseOnce(states: seq<State>, actions: seq<Action>, n: nat)
    requires IsRun(states, actions) && n < |states|
    ensures var s := states[n];
            && |s.flags.stops| == |s.dones| == |s.pcs|
            && (s.flags.running <==> s.flags.stops != [] && s.flags.stops[|s.flags.stops| - 1] == 0)
            && (forall i :: 0 <= i < |s.pcs| ==> s.flags.stops[i] <= 1 && s.dones[i] <= 1)
            && (forall i :: 0 <= i < |s.pcs| ==> (s.dones[i] == 1 <==> s.pcs[i] == Exited))
            && (forall i, j ::
                 0 <= i < |s.pcs| && 0 <= j < |s.pcs| && s.flags.stops[i] == 0 && s.flags.stops[j] == 0 ==> i == j)
  {
    RunKeepsInv(states, actions, n);
  }

  // ------------------------------------------------------------ stop and wait

  lemma TargetIsCurrent(states: seq<State>, actions: seq<Action>, n: nat, m: nat, k: nat)
    requires IsRun(states, actions) && n < m < |states| && actions[n] == Stop(k)
    ensures k in states[m].stoppers
    ensures states[m].stoppers[k].target == if states[n].pcs == [] then None else Some(|states[n].pcs| - 1)
    decreases m
  {
    if n + 1 < m { TargetIsCurrent(states, actions, n, m - 1, k); }
  }

  /** `StopWorker` returns only after the worker that was current when it took the lock has exited. */
  lemma StopWaitsForCurrentWorker(states: seq<State>, actions: seq<Action>, n: nat, m: nat, k: nat)
    requires IsRun(states, actions) && n < m < |states| && actions[n] == Stop(k) && states[n].pcs != []
    requires k in states[m].stoppers && states[m].stoppers[k].Returned?
    ensures |states[n].pcs| <= |states[m].pcs| && states[m].pcs[|states[n].pcs| - 1] == Exited
  {
    RunKeepsInv(states, actions, m);
    TargetIsCurrent(states, actions, n, m, k);
  }

  ghost predicate Continues(states: seq<State>, actions: seq<Action>, more: seq<State>, acts: seq<Action>) {
    IsRun(more, acts) && states <= more && actions <= acts
  }

  function Last(states: seq<State>): State
    requires states != []
  {
    states[|states| - 1]
  }

  lemma Extend(states: seq<State>, actions: seq<Action>, a: Action) returns (more: seq<State>, acts: seq<Action>)
    requires IsRun(states, actions) && Enabled(Last(states), a)
    ensures more == states + [Apply(Last(states), a)] && acts == actions + [a] && Continues(states, actions, more, acts)
  {
    more, acts := states + [Apply(Last(states), a)], actions + [a];
  }

  /** From any point of any run a worker whose stop channel is closed can leave and exit. */
  lemma StoppedWorkerCanExit(states: seq<State>, actions: seq<Action>, i: nat)
      returns (more: seq<State>, acts: seq<Action>)
    requires IsRun(states, actions) && i < |Last(states).pcs| && i < |Last(states).flags.stops|
    requires Last(states).flags.stops[i] > 0
    ensures Continues(states, actions, more, acts) && Last(more).stoppers == Last(states).stoppers
    ensures i < |Last(more).pcs| && Last(more).pcs[i] == Exited
  {
    more, acts := states, actions;
    if Last(more).pcs[i] == Working { more, acts := Extend(more, acts, SeeStop(i)); }
    if Last(more).pcs[i] == Cancelled { more, acts := Extend(more, acts, Cancel(i)); }
    RunKeepsInv(more, acts, |acts|);
    if Last(more).pcs[i] == Leaving { more, acts := Extend(more, acts, Exit(i)); }
  }

  /** So no stop is stuck: every one still waiting has a continuation in which it returns. */
  lemma StopCanReturn(states: seq<State>, actions: seq<Action>, k: nat) returns (more: seq<State>, acts: seq<Action>)
    requires IsRun(states, actions) && k in Last(states).stoppers && Last(states).stoppers[k].Waiting?
    ensures Continues(states, actions, more, acts)
    ensures k in Last(more).stoppers && Last(more).stoppers[k] == Returned(Last(states).stoppers[k].target)
  {
    more, acts := states, actions;
    RunKeepsInv(states, actions, |actions|);
    var target := Last(states).stoppers[k].target;
    if target.Some? { more, acts := StoppedWorkerCanExit(states, actions, target.value); }
    more, acts := Extend(more, acts, Return(k));
  }

  // --------------------------------------------------- who stops which worker

  /** Step `n` closed the stop channel of worker `i`. */
  ghost predicate ClosesStop(states: seq<State>, n: nat, i: nat) {
    && n + 1 < |states| && i < |states[n].flags.stops| && i < |states[n + 1].flags.stops|
    && states[n].flags.stops[i] == 0 && states[n + 1].flags.stops[i] == 1
  }

  /** Step `b` started worker `i`. */
  ghost predicate StartsWorker(states: seq<State>, actions: seq<Action>, b: nat, i: nat) {
    && b < |actions| && b + 1 < |states| && actions[b] == Start
    && |states[b].pcs| == i && |states[b + 1].pcs| == i + 1
  }

  /** A worker that may still find its context done and call `stopWorker`. */
  predicate MayCancel(pc: Pc) { pc == Working || pc == Cancelled }

  lemma {:induction false} GoneStays(states: seq<State>, actions: seq<Action>, n: nat, m: nat, i: nat)
    requires IsRun(states, actions) && n <= m < |states| && i < |states[n].pcs|
    ensures i < |states[m].pcs| && (!MayCancel(states[n].pcs[i]) ==> !MayCancel(states[m].pcs[i]))
    decreases m
  {
    if n < m { GoneStays(states, actions, n, m - 1, i); }
  }

  /**
   * A worker's stop channel is closed by `StopWorker`, by its own cancelled context, or by an earlier
   * worker that, when this one was started, had not yet chosen how to leave.
   */
  lemma WhoStopsAWorker(states: seq<State>, actions: seq<Action>, b: nat, n: nat, i: nat)
    requires IsRun(states, actions) && StartsWorker(states, actions, b, i) && ClosesStop(states, n, i)
    ensures b < n && (actions[n].Stop? || (actions[n].Cancel? && actions[n].i <= i))
    ensures actions[n].Cancel? && actions[n].i < i ==> MayCancel(states[b + 1].pcs[actions[n].i])
  {
    RunKeepsInv(states, actions, n);
    RunKeepsInv(states, actions, b);
    if n < b { GoneStays(states, actions, n, b, i); }
    if actions[n].Cancel? && actions[n].i < i { GoneStays(states, actions, b + 1, n, actions[n].i); }
  }

  /** Whatever happens next, only a stop or its own context closes worker `i`'s channel. */
  ghost predicate OnlyOwnCauses(states: seq<State>, actions: seq<Action>, i: nat) {
    forall more: seq<State>, acts: seq<Action>, n: nat
      {:trigger Continues(states, actions, more, acts), ClosesStop(more, n, i)} ::
      Continues(states, actions, more, acts) && ClosesStop(more, n, i) && n < |acts| ==>
        acts[n].Stop? || acts[n] == Cancel(i)
  }

  /** Conversely any such earlier worker can go on to close its successor's channel. */
  lemma EarlierWorkerCanStop(states: seq<State>, actions: seq<Action>, i: nat, j: nat)
      returns (more: seq<State>, acts: seq<Action>, n: nat)
    requires IsRun(states, actions) && actions != [] && StartsWorker(states, actions, |actions| - 1, i)
    requires j < i && MayCancel(Last(states).pcs[j])
    ensures Continues(states, actions, more, acts) && n < |acts| && acts[n] == Cancel(j) && ClosesStop(more, n, i)
  {
    RunKeepsInv(states, actions, |actions| - 1);
    RunKeepsInv(states, actions, |actions|);
    more, acts := states, actions;
    if Last(more).pcs[j] == Working { more, acts := Extend(more, acts, SeeCancel(j)); }
    n := |acts|;
    more, acts := Extend(more, acts, Cancel(j));
  }

  /**
   * A worker just started can be stopped only by its own causes if and only if every earlier worker is
   * already leaving or gone.
   */
  lemma OwnCausesOnlyIff(states: seq<State>, actions: seq<Action>, i: nat)
    requires IsRun(states, actions) && actions != [] && StartsWorker(states, actions, |actions| - 1, i)
    ensures OnlyOwnCauses(states, actions, i) <==> forall j :: 0 <= j < i ==> !MayCancel(Last(states).pcs[j])
  {
    if OnlyOwnCauses(states, actions, i) {
      forall j | 0 <= j < i ensures !MayCancel(Last(states).pcs[j]) {
        if MayCancel(Last(states).pcs[j]) {
          var more, acts, n := EarlierWorkerCanStop(states, actions, i, j);
        }
      }
    }
    if forall j :: 0 <= j < i ==> !MayCancel(Last(states).pcs[j]) {
      forall more: seq<State>, acts: seq<Action>, n: nat
        | Continues(states, actions, more, acts) && ClosesStop(more, n, i) && n < |acts|
        ensures acts[n].Stop? || acts[n] == Cancel(i)
      {
        assert StartsWorker(more, acts, |actions| - 1, i);
        WhoStopsAWorker(more, acts, |actions| - 1, n, i);
        assert more[|actions|] == Last(states);
      }
    }
  }

  /** The first worker sees its context cancelled, and is stopped before it can say so. */
  lemma StoppedWhileCancelled() returns (states: seq<State>, actions: seq<Action>)
    ensures IsRun(states, actions) && |actions| == 3
    ensures states[3] == State(Flags(false, [1]), [Cancelled], [0], map[0 := Waiting(Some(0))])
  {
    states, actions := [INITIAL], [];
    states, actions := Extend(states, actions, Start);
    assert states[1] == State(Flags(true, [0]), [Working], [0], map[]);
    states, actions := Extend(states, actions, SeeCancel(0));
    assert states[2] == State(Flags(true, [0]), [Cancelled], [0], map[]);
    states, actions := Extend(states, actions, Stop(0));
  }

  /** The other case occurs: a worker whose context was cancelled has been stopped and already succeeded. */
  lemma StaleWorkerStopsSuccessor() returns (states: seq<State>, actions: seq<Action>)
    ensures IsRun(states, actions) && |actions| == 5
    ensures actions[3] == Start && ClosesStop(states, 4, 1) && actions[4] == Cancel(0)
  {
    states, actions := StoppedWhileCancelled();
    states, actions := Extend(states, actions, Start);
    assert states[4] == State(Flags(true, [1, 0]), [Cancelled, Working], [0, 0], map[0 := Waiting(Some(0))]);
    states, actions := Extend(states, actions, Cancel(0));
  }
}
