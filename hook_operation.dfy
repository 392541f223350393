/** The unit agent's hook operations: the Run, Retry and Skip variants, each
    driven through Prepare, Execute and Commit against a persisted State.

    The three phases are first given as pure functions (PrepareSpec,
    ExecuteSpec, CommitSpec) that say which State, which error and which
    collaborator calls each phase produces; class RunHookOperation then
    performs the same phases step by step, keeping the runner built by
    Prepare, a lock flag and a log of the calls it makes, and its methods
    are proved against those functions. */
module HookOperation {
  import opened Wrappers

  /** The lifecycle events a charm can react to; OtherHook stands for every
      kind the queuing table does not single out. */
  datatype HookKind =
    | Install
    | Start
    | ConfigChanged
    | UpgradeCharm
    | Stop
    | CollectMetrics
    | MeterStatusChanged
    | RelationJoined
    | RelationChanged
    | RelationDeparted
    | RelationBroken
    | OtherHook(name: string)

  /** A hook's identity: its kind plus the relation context of relation hooks. */
  datatype HookInfo = HookInfo(kind: HookKind, relationId: int, remoteUnit: string, changeVersion: int)

  /** A hook identity with nothing but a kind, as the queuing table writes it. */
  function Bare(kind: HookKind): (info: HookInfo)
    ensures info.kind == kind && info.remoteUnit == ""
  {
    HookInfo(kind, 0, "", 0)
  }

  /** KindUnset and StepUnset are the zero values of a State that was never written. */
  datatype OpKind = KindUnset | RunHook | Continue | OtherKind(name: string)

  datatype Step = StepUnset | Pending | Queued | Done

  datatype State = State(
    kind: OpKind,
    step: Step,
    hook: Option<HookInfo>,
    started: bool,
    collectMetricsTime: int)

  /** The State of a unit that has never run an operation. */
  const Blank := State(KindUnset, StepUnset, None, false, 0)

  /** The three sentinel errors, and any collaborator's own error. */
  datatype Error = ErrSkipExecute | ErrHookFailed | ErrNeedsReboot | Failed(message: string)

  datatype Variant = Run | Retry | Skip

  /** What running a hook's script reports. */
  datatype RunOutcome =
    | RunSucceeded
    | MissingHook
    | RequeueAndReboot
    | Reboot
    | RunFailed(message: string)

  /** The answers the collaborators give when asked: the error of
      ClearResolvedFlag, the hook name (or error) of PrepareHook, the
      context id of the runner (or error) NewHookRunner builds, the error of
      AcquireExecutionLock, the runner's outcome, the error of CommitHook. */
  datatype Callbacks = Callbacks(
    clearResolvedFlag: Option<Error>,
    prepareHook: Result<string, Error>,
    newHookRunner: Result<string, Error>,
    acquireLock: Option<Error>,
    runHook: RunOutcome,
    commitHook: Option<Error>)

  /** One call an operation makes on its collaborators. */
  datatype Event =
    | ClearedResolvedFlag
    | PreparedHook(info: HookInfo)
    | BuiltRunner(info: HookInfo)
    | RequestedLock(message: string)
    | RanHook(name: string)
    | ReleasedLock
    | NotifiedCompleted(name: string, context: string)
    | NotifiedFailed(name: string, context: string)
    | CommittedHook(info: HookInfo)

  /** What one phase returns (a new State or none, an error or none) and the
      calls it made, in order. */
  datatype PhaseResult = PhaseResult(state: Option<State>, err: Option<Error>, events: seq<Event>)

  /** Overwrites the fields a phase governs; everything else is carried forward. */
  function Change(s: State, kind: OpKind, step: Step, info: HookInfo): (t: State)
    ensures t.kind == kind && t.step == step && t.hook == Some(info)
    ensures t.started == s.started && t.collectMetricsTime == s.collectMetricsTime
  {
    s.(kind := kind, step := step, hook := Some(info))
  }

  function LockMessage(name: string): string
  {
    "running hook " + name
  }

  /** Number of occurrences of e in log. */
  function Count(e: Event, log: seq<Event>): (n: nat)
    ensures n <= |log|
    ensures e !in log ==> n == 0
  {
    if log == [] then 0
    else Count(e, log[..|log| - 1]) + (if log[|log| - 1] == e then 1 else 0)
  }

  lemma {:induction false} CountAppend(e: Event, a: seq<Event>, b: seq<Event>)
    ensures Count(e, a + b) == Count(e, a) + Count(e, b)
    decreases |b|
  {
    if b == [] {
      assert a + b == a;
    } else {
      assert (a + b)[..|a + b| - 1] == a + b[..|b| - 1];
      CountAppend(e, a, b[..|b| - 1]);
    }
  }

  // ---------------------------------------------------------------------
  // Prepare

  /** Prepare of the plain Run operation: prepare the hook's context, build
      its runner, and mark the hook pending. */
  function RunPrepare(info: HookInfo, c: Callbacks, s: State): (r: PhaseResult)
    ensures r.state.Some? <==> r.err.None?
    ensures r.state.Some? <==> c.prepareHook.Success? && c.newHookRunner.Success?
    ensures r.state.Some? ==> r.state.value == Change(s, RunHook, Pending, info)
    ensures c.prepareHook.Failure? ==> r.err == Some(c.prepareHook.error) && r.events == [PreparedHook(info)]
    ensures c.prepareHook.Success? && c.newHookRunner.Failure? ==> r.err == Some(c.newHookRunner.error)
    ensures c.prepareHook.Success? ==> r.events == [PreparedHook(info), BuiltRunner(info)]
    ensures ClearedResolvedFlag !in r.events
  {
    if c.prepareHook.Failure? then
      PhaseResult(None, Some(c.prepareHook.error), [PreparedHook(info)])
    else if c.newHookRunner.Failure? then
      PhaseResult(None, Some(c.newHookRunner.error), [PreparedHook(info), BuiltRunner(info)])
    else
      PhaseResult(Some(Change(s, RunHook, Pending, info)), None, [PreparedHook(info), BuiltRunner(info)])
  }

  /** Prepare of any variant: Retry and Skip first clear the resolved flag;
      Skip then stops with ErrSkipExecute; Run and Retry go on as RunPrepare. */
  function PrepareSpec(v: Variant, info: HookInfo, c: Callbacks, s: State): (r: PhaseResult)
    ensures r.state.Some? <==> r.err.None?
    ensures r.state.Some? ==> r.state.value.kind == RunHook && r.state.value.step == Pending
    ensures r.state.Some? ==> r.state.value.hook == Some(info)
    ensures r.state.Some? ==> r.state.value.started == s.started
    ensures r.state.Some? ==> r.state.value.collectMetricsTime == s.collectMetricsTime
    ensures (|r.events| > 0 && r.events[0] == ClearedResolvedFlag) <==> v != Run
    ensures v != Run && c.clearResolvedFlag.Some? ==> r.err == c.clearResolvedFlag && |r.events| == 1
    ensures v == Skip ==> r.err.Some? && PreparedHook(info) !in r.events && BuiltRunner(info) !in r.events
    ensures v == Skip && c.clearResolvedFlag.None? ==> r.err == Some(ErrSkipExecute)
    ensures v == Run ==> r == RunPrepare(info, c, s)
  {
    if v == Run then RunPrepare(info, c, s)
    else if c.clearResolvedFlag.Some? then PhaseResult(None, c.clearResolvedFlag, [ClearedResolvedFlag])
    else if v == Skip then PhaseResult(None, Some(ErrSkipExecute), [ClearedResolvedFlag])
    else
      var run := RunPrepare(info, c, s);
      run.(events := [ClearedResolvedFlag] + run.events)
  }

  /** Prepare yields a state exactly when it is not Skip, the resolved flag
      (for Retry) cleared, and both the hook and its runner were prepared. */
  lemma PrepareSucceedsIff(v: Variant, info: HookInfo, c: Callbacks, s: State)
    ensures PrepareSpec(v, info, c, s).state.Some? <==>
      && v != Skip
      && (v == Retry ==> c.clearResolvedFlag.None?)
      && c.prepareHook.Success?
      && c.newHookRunner.Success?
  {
  }

  /** Run and Retry behave alike once the resolved flag is cleared. */
  lemma RetryIsRunAfterClearing(info: HookInfo, c: Callbacks, s: State)
    requires c.clearResolvedFlag.None?
    ensures PrepareSpec(Retry, info, c, s).state == PrepareSpec(Run, info, c, s).state
    ensures PrepareSpec(Retry, info, c, s).err == PrepareSpec(Run, info, c, s).err
    ensures PrepareSpec(Retry, info, c, s).events == [ClearedResolvedFlag] + PrepareSpec(Run, info, c, s).events
  {
  }

  // ---------------------------------------------------------------------
  // Execute

  /** Execute: take the execution lock, run the hook, release the lock,
      and report the outcome. The Skip variant runs nothing. */
  function ExecuteSpec(v: Variant, info: HookInfo, name: string, context: string, c: Callbacks, s: State): (r: PhaseResult)
    ensures r.state.Some? ==> r.state.value == Change(s, RunHook, r.state.value.step, info)
    ensures r.state.Some? ==> r.state.value.step == Done || r.state.value.step == Queued
    ensures r.state.Some? && r.state.value.step == Queued <==> v != Skip && c.acquireLock.None? && c.runHook == RequeueAndReboot
    ensures r.state.Some? && r.err == Some(ErrNeedsReboot) <==>
      v != Skip && c.acquireLock.None? && (c.runHook.RequeueAndReboot? || c.runHook.Reboot?)
    ensures r.err.None? ==> r.state.Some? && r.state.value.step == Done
    ensures v != Skip && c.acquireLock.Some? ==> r == PhaseResult(None, c.acquireLock, [RequestedLock(LockMessage(name))])
    ensures v != Skip && c.acquireLock.None? && c.runHook.RunFailed? ==> r.state.None? && r.err == Some(ErrHookFailed)
    ensures v == Skip ==> r == PhaseResult(None, Some(ErrSkipExecute), [])
    ensures v != Skip && c.acquireLock.None? ==>
      |r.events| >= 3 && r.events[..3] == [RequestedLock(LockMessage(name)), RanHook(name), ReleasedLock]
    ensures v != Skip && c.acquireLock.None? && (c.runHook.RunSucceeded? || c.runHook.MissingHook?) ==>
      r.state == Some(Change(s, RunHook, Done, info)) && r.err.None?
  {
    if v == Skip then PhaseResult(None, Some(ErrSkipExecute), [])
    else
      var asked := [RequestedLock(LockMessage(name))];
      if c.acquireLock.Some? then PhaseResult(None, c.acquireLock, asked)
      else
        var ran := asked + [RanHook(name), ReleasedLock];
        match c.runHook
        case RunSucceeded =>
          PhaseResult(Some(Change(s, RunHook, Done, info)), None, ran + [NotifiedCompleted(name, context)])
        case MissingHook =>
          PhaseResult(Some(Change(s, RunHook, Done, info)), None, ran)
        case RequeueAndReboot =>
          PhaseResult(Some(Change(s, RunHook, Queued, info)), Some(ErrNeedsReboot), ran + [NotifiedCompleted(name, context)])
        case Reboot =>
          PhaseResult(Some(Change(s, RunHook, Done, info)), Some(ErrNeedsReboot), ran + [NotifiedCompleted(name, context)])
        case RunFailed(_) =>
          PhaseResult(None, Some(ErrHookFailed), ran + [NotifiedFailed(name, context)])
  }

  /** Once the lock was granted it is released exactly once, whatever the
      hook did; when it was refused it is never released. */
  lemma {:induction false} ExecuteReleasesLockOnce(v: Variant, info: HookInfo, name: string, context: string, c: Callbacks, s: State)
    ensures Count(ReleasedLock, ExecuteSpec(v, info, name, context, c, s).events) ==
      if v != Skip && c.acquireLock.None? then 1 else 0
  {
    var r := ExecuteSpec(v, info, name, context, c, s);
    var one := [RanHook(name), ReleasedLock];
    assert Count(ReleasedLock, one) == 1 by {
      assert one[..1] == [RanHook(name)];
      assert [RanHook(name)][..0] == [];
    }
    if v != Skip && c.acquireLock.None? {
      var asked := [RequestedLock(LockMessage(name))];
      assert Count(ReleasedLock, asked) == 0;
      CountAppend(ReleasedLock, asked, one);
      var notified := r.events[|asked + one|..];
      assert r.events == (asked + one) + notified;
      assert ReleasedLock !in notified;
      CountAppend(ReleasedLock, asked + one, notified);
    }
  }

  /** Exactly the outcomes that ran a hook to some end notify "completed";
      only a failed hook notifies "failed"; a missing hook notifies nothing. */
  lemma ExecuteNotifications(v: Variant, info: HookInfo, name: string, context: string, c: Callbacks, s: State)
    requires v != Skip && c.acquireLock.None?
    ensures NotifiedCompleted(name, context) in ExecuteSpec(v, info, name, context, c, s).events <==>
      c.runHook.RunSucceeded? || c.runHook.RequeueAndReboot? || c.runHook.Reboot?
    ensures NotifiedFailed(name, context) in ExecuteSpec(v, info, name, context, c, s).events <==> c.runHook.RunFailed?
    ensures c.runHook.MissingHook? ==>
      forall e :: e in ExecuteSpec(v, info, name, context, c, s).events ==> !e.NotifiedCompleted? && !e.NotifiedFailed?
  {
  }

  // ---------------------------------------------------------------------
  // Commit

  /** The queuing table: the hook to queue after committing a hook of this
      kind, given whether the unit has started. */
  function NextHook(kind: HookKind, started: bool): (next: Option<HookKind>)
    ensures next == Some(ConfigChanged) <==> kind == Install || kind == UpgradeCharm
    ensures next == Some(Start) <==> kind == ConfigChanged && !started
    ensures next.Some? ==> next.value == ConfigChanged || next.value == Start
  {
    match kind
    case Install => Some(ConfigChanged)
    case UpgradeCharm => Some(ConfigChanged)
    case ConfigChanged => if started then None else Some(Start)
    case _ => None
  }

  /** The State after the hook info was committed at time now. */
  function Committed(info: HookInfo, s: State, now: int): (t: State)
    ensures t.started == (s.started || info.kind == Start)
    ensures t.collectMetricsTime == if info.kind == CollectMetrics then now else s.collectMetricsTime
    ensures NextHook(info.kind, s.started).Some? ==>
      t.kind == RunHook && t.step == Queued && t.hook == Some(Bare(NextHook(info.kind, s.started).value))
    ensures NextHook(info.kind, s.started).None? ==> t.kind == Continue && t.step == Pending && t.hook == Some(info)
  {
    var queued := NextHook(info.kind, s.started);
    var t := if queued.Some? then Change(s, RunHook, Queued, Bare(queued.value)) else Change(s, Continue, Pending, info);
    if info.kind == Start then t.(started := true)
    else if info.kind == CollectMetrics then t.(collectMetricsTime := now)
    else t
  }

  /** Commit (the same for all three variants): persist the hook's effects,
      then apply the queuing table. */
  function CommitSpec(info: HookInfo, c: Callbacks, s: State, now: int): (r: PhaseResult)
    ensures r.events == [CommittedHook(info)]
    ensures r.state.Some? <==> r.err.None?
    ensures c.commitHook.Some? ==> r.err == c.commitHook
    ensures c.commitHook.None? ==> r.state == Some(Committed(info, s, now))
  {
    if c.commitHook.Some? then PhaseResult(None, c.commitHook, [CommittedHook(info)])
    else PhaseResult(Some(Committed(info, s, now)), None, [CommittedHook(info)])
  }

  /** The CollectMetrics timestamp lies between clock readings taken just
      before and just after the commit. */
  lemma CollectMetricsTimeBounded(info: HookInfo, c: Callbacks, s: State, before: int, now: int, after: int)
    requires info.kind == CollectMetrics && c.commitHook.None?
    requires before <= now <= after
    ensures CommitSpec(info, c, s, now).state.Some?
    ensures before <= CommitSpec(info, c, s, now).state.value.collectMetricsTime <= after
    ensures CommitSpec(info, c, s, now).state.value == State(Continue, Pending, Some(info), s.started, now)
  {
  }

  /** Following the queue from any committed hook ends within two more
      commits: the table never queues hooks forever. */
  lemma QueueChainEnds(info: HookInfo, s: State, n1: int, n2: int, n3: int)
    ensures var s1 := Committed(info, s, n1);
      s1.kind == RunHook ==>
        var s2 := Committed(s1.hook.value, s1, n2);
        s2.kind == RunHook ==>
          Committed(s2.hook.value, s2, n3).kind == Continue
  {
    var s1 := Committed(info, s, n1);
    if s1.kind == RunHook {
      var s2 := Committed(s1.hook.value, s1, n2);
      if s2.kind == RunHook {
        assert s2.hook.value.kind == Start;
      }
    }
  }

  /** A fresh unit that installs runs config-changed, then start, and is
      then started with nothing queued. */
  lemma InstallThenConfigThenStart(s: State, n1: int, n2: int, n3: int)
    requires !s.started
    ensures var s1 := Committed(Bare(Install), s, n1);
      && s1 == Change(s, RunHook, Queued, Bare(ConfigChanged))
      && var s2 := Committed(s1.hook.value, s1, n2);
      && s2 == Change(s, RunHook, Queued, Bare(Start))
      && Committed(s2.hook.value, s2, n3) == State(Continue, Pending, Some(Bare(Start)), true, s.collectMetricsTime)
  {
  }

  /** A run of successful commits, each with the time it happened at. */
  datatype Commit = Commit(info: HookInfo, now: int)

  function AfterCommits(s: State, commits: seq<Commit>): State
    decreases |commits|
  {
    if commits == [] then s
    else
      var last := commits[|commits| - 1];
      Committed(last.info, AfterCommits(s, commits[..|commits| - 1]), last.now)
  }

  /** Started is false until a Start hook commits and true ever after. */
  lemma {:induction false} StartedMonotone(s: State, commits: seq<Commit>)
    ensures AfterCommits(s, commits).started <==>
      s.started || exists i :: 0 <= i < |commits| && commits[i].info.kind == Start
    decreases |commits|
  {
    if commits != [] {
      var init := commits[..|commits| - 1];
      StartedMonotone(s, init);
      if exists i :: 0 <= i < |init| && init[i].info.kind == Start {
        var i :| 0 <= i < |init| && init[i].info.kind == Start;
        assert commits[i] == init[i];
      }
      if exists i :: 0 <= i < |commits| && commits[i].info.kind == Start {
        var i :| 0 <= i < |commits| && commits[i].info.kind == Start;
        if i < |init| {
          assert init[i] == commits[i];
        }
      }
    }
  }

  /** CollectMetricsTime is either the one the run began with or the time of
      one of its CollectMetrics commits, and it keeps its value across a run
      with no CollectMetrics commit. */
  lemma {:induction false} MetricsTimeOnlyFromCollectMetrics(s: State, commits: seq<Commit>)
    ensures var t := AfterCommits(s, commits).collectMetricsTime;
      || t == s.collectMetricsTime
      || exists i :: 0 <= i < |commits| && commits[i].info.kind == CollectMetrics && commits[i].now == t
    ensures (forall i :: 0 <= i < |commits| ==> commits[i].info.kind != CollectMetrics) ==>
      AfterCommits(s, commits).collectMetricsTime == s.collectMetricsTime
    decreases |commits|
  {
    if commits != [] {
      var init := commits[..|commits| - 1];
      MetricsTimeOnlyFromCollectMetrics(s, init);
      var t0 := AfterCommits(s, init).collectMetricsTime;
      if exists i :: 0 <= i < |init| && init[i].info.kind == CollectMetrics && init[i].now == t0 {
        var i :| 0 <= i < |init| && init[i].info.kind == CollectMetrics && init[i].now == t0;
        assert commits[i] == init[i];
      }
      if forall i :: 0 <= i < |commits| ==> commits[i].info.kind != CollectMetrics {
        assert forall i :: 0 <= i < |init| ==> init[i] == commits[i];
      }
    }
  }

  /** Prepare, Execute and Commit of one successful Run carry Started and
      CollectMetricsTime through to the commit, where only its rules apply. */
  lemma PhasesCarryForward(v: Variant, info: HookInfo, context: string, c: Callbacks, s: State, now: int)
    requires v != Skip && c.prepareHook.Success?
    requires PrepareSpec(v, info, c, s).state.Some?
    requires c.acquireLock.None? && (c.runHook.RunSucceeded? || c.runHook.MissingHook?)
    requires c.commitHook.None?
    ensures var p := PrepareSpec(v, info, c, s).state.value;
      var e := ExecuteSpec(v, info, c.prepareHook.value, context, c, p).state;
      && e == Some(State(RunHook, Done, Some(info), s.started, s.collectMetricsTime))
      && CommitSpec(info, c, e.value, now).state == Some(Committed(info, s, now))
  {
  }

  // ---------------------------------------------------------------------
  // The operation object

  /** One hook operation as the factory builds it: a variant, the hook it is
      bound to and its collaborators. Prepare keeps the hook name and the
      runner for Execute; the lock flag and the call log stand for the
      execution lock and the collaborators' view of the calls. */
  class RunHookOperation {
    const variant: Variant
    const info: HookInfo
    const callbacks: Callbacks
    var name: string
    var runner: Option<string>
    var lockHeld: bool
    var events: seq<Event>

    constructor (variant: Variant, info: HookInfo, callbacks: Callbacks)
      ensures this.variant == variant && this.info == info && this.callbacks == callbacks
      ensures name == "" && runner == None && !lockHeld && events == []
    {
      this.variant := variant;
      this.info := info;
      this.callbacks := callbacks;
      name := "";
      runner := None;
      lockHeld := false;
      events := [];
    }

    method Prepare(s: State) returns (r: Option<State>, err: Option<Error>)
      modifies this
      ensures var spec := PrepareSpec(variant, info, callbacks, s);
        r == spec.state && err == spec.err && events == old(events) + spec.events
      ensures r.Some? ==> name == callbacks.prepareHook.value && runner == Some(callbacks.newHookRunner.value)
      ensures r.None? ==> name == old(name) && runner == old(runner)
      ensures lockHeld == old(lockHeld)
    {
      if variant != Run {
        events := events + [ClearedResolvedFlag];
        if callbacks.clearResolvedFlag.Some? {
          return None, callbacks.clearResolvedFlag;
        }
        if variant == Skip {
          return None, Some(ErrSkipExecute);
        }
      }
      events := events + [PreparedHook(info)];
      if callbacks.prepareHook.Failure? {
        return None, Some(callbacks.prepareHook.error);
      }
      events := events + [BuiltRunner(info)];
      if callbacks.newHookRunner.Failure? {
        return None, Some(callbacks.newHookRunner.error);
      }
      name := callbacks.prepareHook.value;
      runner := Some(callbacks.newHookRunner.value);
      r, err := Some(Change(s, RunHook, Pending, info)), None;
    }

    method Execute(s: State) returns (r: Option<State>, err: Option<Error>)
      requires variant != Skip ==> runner.Some?
      requires !lockHeld
      modifies this`lockHeld, this`events
      ensures !lockHeld
      ensures var context := if runner.Some? then runner.value else "";
        var spec := ExecuteSpec(variant, info, name, context, callbacks, s);
        r == spec.state && err == spec.err && events == old(events) + spec.events
    {
      if variant == Skip {
        return None, Some(ErrSkipExecute);
      }
      var context := runner.value;
      events := events + [RequestedLock(LockMessage(name))];
      if callbacks.acquireLock.Some? {
        return None, callbacks.acquireLock;
      }
      lockHeld := true;
      events := events + [RanHook(name)];
      var outcome := callbacks.runHook;
      lockHeld := false;
      events := events + [ReleasedLock];
      match outcome {
        case MissingHook =>
          r, err := Some(Change(s, RunHook, Done, info)), None;
        case RunFailed(_) =>
          events := events + [NotifiedFailed(name, context)];
          r, err := None, Some(ErrHookFailed);
        case _ =>
          events := events + [NotifiedCompleted(name, context)];
          var step := if outcome == RequeueAndReboot then Queued else Done;
          r := Some(Change(s, RunHook, step, info));
          err := if outcome == RunSucceeded then None else Some(ErrNeedsReboot);
      }
    }

    method Commit(s: State, now: int) returns (r: Option<State>, err: Option<Error>)
      modifies this`events
      ensures var spec := CommitSpec(info, callbacks, s, now);
        r == spec.state && err == spec.err && events == old(events) + spec.events
    {
      events := events + [CommittedHook(info)];
      if callbacks.commitHook.Some? {
        return None, callbacks.commitHook;
      }
      r, err := Some(Committed(info, s, now)), None;
    }
  }

  /** The requeue-and-reboot scenario driven through the object: the lock is
      asked for with the hook's name, released, and the hook stays queued. */
  method RequeueAndRebootScenario() returns (after: Option<State>, err: Option<Error>, log: seq<Event>)
    ensures after == Some(State(RunHook, Queued, Some(Bare(ConfigChanged)), false, 0))
    ensures err == Some(ErrNeedsReboot)
    ensures log == [PreparedHook(Bare(ConfigChanged)), BuiltRunner(Bare(ConfigChanged)),
      RequestedLock("running hook some-hook-name"), RanHook("some-hook-name"), ReleasedLock,
      NotifiedCompleted("some-hook-name", "ctx")]
  {
    var c := Callbacks(None, Success("some-hook-name"), Success("ctx"), None, RequeueAndReboot, None);
    var op := new RunHookOperation(Run, Bare(ConfigChanged), c);
    var mid, err1 := op.Prepare(Blank);
    assert op.events == [PreparedHook(Bare(ConfigChanged)), BuiltRunner(Bare(ConfigChanged))];
    assert mid == Some(State(RunHook, Pending, Some(Bare(ConfigChanged)), false, 0)) && err1 == None;
    after, err := op.Execute(Blank);
    assert LockMessage("some-hook-name") == "running hook some-hook-name";
    assert !op.lockHeld;
    log := op.events;
  }
}
