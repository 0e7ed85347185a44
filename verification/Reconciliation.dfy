/**
 Configuration reconciliation: one worker applies the latest snapshot of the configuration and
 alone decides when watering may be admitted again. Observations, a reload and the shutdown
 interleave with it wherever it awaits.

 `Coordinator` is the value the coordinator's fields amount to; the class performs the
 synchronous pieces on its fields.
 */
module Reconciliation {
  import opened Vocabulary
  import opened SlotManagement

  /** What the public configuration mapping shows when it is read. */
  datatype Reading = Read(fingerprint: string, zones: map<string, string>) | Unreadable

  /** A captured configuration; `zones` maps each zone to its configuration fingerprint. */
  datatype EntrySnapshot = EntrySnapshot(generation: nat, fingerprint: string, zones: map<string, string>)

  function Capture(reading: Reading, generation: nat): Option<EntrySnapshot> {
    match reading
    case Unreadable => None
    case Read(fingerprint, zones) => Some(EntrySnapshot(generation, fingerprint, zones))
  }

  datatype Reload = Reload(generation: nat, fingerprint: string)

  datatype ReloadTask = Created(reload: Reload) | Reloading(reload: Reload)

  datatype Coordinator = Coordinator(
    observed: nat,
    applied: nat,
    snapshot: Option<EntrySnapshot>,
    appliedSnapshot: Option<EntrySnapshot>,
    dirty: bool,
    reconciling: bool,
    failed: bool,
    closed: bool,
    platform: Option<EntrySnapshot>,
    refused: Option<string>,
    reloadPending: bool,
    reload: Option<Reload>,
    scheduled: bool,
    task: Option<ReloadTask>,
    barrier: Barrier)

  const OPEN: Barrier := Barrier(false, false, false)

  const FRESH: Coordinator :=
    Coordinator(0, 0, None, None, false, false, false, false, None, None, false, None, false, None, OPEN)

  // ----- the synchronous pieces ---------------------------------------------------------------------

  function Observe(c: Coordinator, reading: Reading): Coordinator {
    var s := Capture(reading, c.observed + 1);
    c.(observed := c.observed + 1, snapshot := s, dirty := true, failed := s.None?,
    barrier := c.barrier.With(Some(true), None, Some(s.None?)))
  }

  function Fail(c: Coordinator): Coordinator {
    c.(dirty := true, reconciling := false, failed := true, barrier := Barrier(true, false, true))
  }

  /** The worker goes on with this pass only if it was given a target. */
  function BeginPass(c: Coordinator): (Coordinator, Option<EntrySnapshot>) {
    if c.closed then (c, None)
    else if c.snapshot.None? then (Fail(c), None)
    else (c.(reconciling := true, failed := false, barrier := Barrier(true, true, false)), c.snapshot)
  }

  predicate Current(c: Coordinator, target: EntrySnapshot) {
    !c.closed && c.observed == target.generation && c.snapshot == Some(target)
  }

  /** Loaded platforms must be rebuilt for an added or changed zone; a removal needs nothing. */
  predicate ReloadRequired(platform: Option<EntrySnapshot>, target: EntrySnapshot) {
    platform.Some? &&
    exists id :: id in target.zones && (id !in platform.value.zones || platform.value.zones[id] != target.zones[id])
  }

  function CancelReload(c: Coordinator): Coordinator {
    if c.task.None? then c.(scheduled := false, reloadPending := false, reload := None) else c.(scheduled := false)
  }

  function QueueReload(c: Coordinator, target: EntrySnapshot): Coordinator {
    c.(reloadPending := true, reload := Some(Reload(target.generation, target.fingerprint)),
    barrier := Barrier(true, false, false), scheduled := c.scheduled || c.task.None?)
  }

  function Adopt(c: Coordinator, target: EntrySnapshot): Coordinator {
    c.(applied := target.generation, appliedSnapshot := Some(target),
    dirty := false, reconciling := false, failed := false,
    platform := if c.platform.None? then Some(target) else c.platform)
  }

  function Publish(c: Coordinator, target: EntrySnapshot): Coordinator {
    var p := Adopt(c, target);
    if c.refused == Some(target.fingerprint) then Fail(p)
    else if ReloadRequired(c.platform, target) then QueueReload(p, target)
    else CancelReload(p).(barrier := OPEN)
  }

  /** What the awaited application of a target came to, and what the mapping then shows. */
  datatype Return = Return(ok: bool, reread: Reading, again: Reading)

  /** A mapping that changed without a notification counts as observed now. */
  function Reread(c: Coordinator, target: EntrySnapshot, r: Return): Coordinator {
    if c.observed == target.generation && r.reread.Read? && r.reread.fingerprint != target.fingerprint
    then Observe(c, r.again) else c
  }

  predicate Superseded(c: Coordinator, target: EntrySnapshot, r: Return) {
    && r.ok && !c.closed
    && !(c.observed == target.generation && r.reread.Unreadable?)
    && !Current(Reread(c, target, r), target)
  }

  /** The piece after the await, up to publication, failure, or the next pass. */
  function FinishPass(c: Coordinator, target: EntrySnapshot, r: Return): Coordinator {
    if !r.ok then Fail(c)
    else if c.closed then c
    else if c.observed == target.generation && r.reread.Unreadable? then Fail(c)
    else if Current(Reread(c, target, r), target) then Publish(Reread(c, target, r), target)
    else Reread(c, target, r)
  }

  predicate ReloadCurrent(c: Coordinator, r: Reload) {
    && c.reloadPending && !c.closed && c.reload == Some(r)
    && c.observed == r.generation && c.applied == r.generation
  }

  function BeginReload(c: Coordinator): Coordinator {
    if && c.reload.Some? && ReloadCurrent(c, c.reload.value)
       && !c.dirty && !c.reconciling && !c.failed
       && c.appliedSnapshot.Some? && c.appliedSnapshot.value.fingerprint == c.reload.value.fingerprint
    then c.(scheduled := false, task := Some(Created(c.reload.value)))
    else c.(scheduled := false)
  }

  function EnterReload(c: Coordinator, r: Reload): Coordinator {
    c.(task := if ReloadCurrent(c, r) then Some(Reloading(r)) else None)
  }

  datatype ReloadResult = Reloaded | Refused | Cancelled

  function Refuse(c: Coordinator, r: Reload): Coordinator {
    Fail(c.(refused := Some(r.fingerprint), reloadPending := false))
  }

  function EndReload(c: Coordinator, r: Reload, result: ReloadResult): Coordinator {
    var ended := c.(task := None);
    match result
    case Reloaded =>
      ended.(reloadPending := false, reload := None, platform := c.appliedSnapshot,
      barrier := if c.closed then c.barrier else OPEN)
    case Refused =>
      if !c.closed && c.reload.Some? && c.reload.value.fingerprint == r.fingerprint then Refuse(ended, r) else ended
    case Cancelled => if !c.closed then Refuse(ended, r) else ended
  }

  function ClosePublication(c: Coordinator): Coordinator {
    CancelReload(c.(closed := true, dirty := true, barrier := c.barrier.With(Some(true), Some(false), None)))
  }

  // ----- interleavings ------------------------------------------------------------------------------

  /** `start` and `passes` observe the worker's loop: the generation it began at, the passes made. */
  datatype Process = Process(c: Coordinator, worker: Option<EntrySnapshot>, start: nat, passes: nat)

  datatype Step =
    | Observed(reading: Reading)
    | WorkerStarts
    | PassReturns(r: Return)
    | ReloadTick
    | ReloadEnters
    | ReloadEnds(result: ReloadResult)
    | Closes

  /** A reload that succeeds has unloaded this runtime, which closes publication. */
  predicate Possible(p: Process, step: Step) {
    match step
    case Observed(_) => true
    case WorkerStarts => p.worker.None? && !p.c.closed && (p.c.dirty || p.c.applied != p.c.observed)
    case PassReturns(_) => p.worker.Some?
    case ReloadTick => p.c.scheduled
    case ReloadEnters => p.c.task.Some? && p.c.task.value.Created?
    case ReloadEnds(result) =>
      p.c.task.Some? && p.c.task.value.Reloading? && (result.Reloaded? ==> p.c.closed)
    case Closes => true
  }

  /** Another turn of the worker's loop. */
  function Turn(p: Process, c: Coordinator): Process {
    var (begun, target) := BeginPass(c);
    Process(begun, target, p.start, p.passes + if target.Some? then 1 else 0)
  }

  function After(p: Process, step: Step): Process
    requires Possible(p, step)
  {
    match step
    case Observed(reading) => p.(c := Observe(p.c, reading))
    case WorkerStarts => Turn(p.(start := p.c.observed, passes := 0), p.c)
    case PassReturns(r) =>
      var c := FinishPass(p.c, p.worker.value, r);
      if Superseded(p.c, p.worker.value, r) then Turn(p, c) else p.(c := c, worker := None)
    case ReloadTick => p.(c := BeginReload(p.c))
    case ReloadEnters => p.(c := EnterReload(p.c, p.c.task.value.reload))
    case ReloadEnds(result) => p.(c := EndReload(p.c, p.c.task.value.reload, result))
    case Closes => p.(c := ClosePublication(p.c))
  }

  // ----- the invariant ------------------------------------------------------------------------------

  predicate Generations(c: Coordinator) {
    && c.applied <= c.observed
    && (c.snapshot.Some? ==> c.snapshot.value.generation == c.observed)
    && (c.appliedSnapshot.Some? <==> c.applied > 0)
    && (c.appliedSnapshot.Some? ==> c.appliedSnapshot.value.generation == c.applied)
    && (c.applied == c.observed ==> c.snapshot == c.appliedSnapshot)
  }

  /** Admission is open only for the current configuration, and never after the close. */
  predicate AdmissionCurrent(c: Coordinator) {
    && (c.barrier.Clear() ==> c.applied == c.observed)
    && (c.closed ==> c.barrier.dirty)
  }

  predicate Working(p: Process) {
    p.worker.Some? ==>
      && p.c.barrier.dirty
      && 1 <= p.worker.value.generation <= p.c.observed
      && (p.worker.value.generation == p.c.observed ==> p.c.snapshot == p.worker)
      && p.start <= p.worker.value.generation
      && p.passes <= 1 + p.worker.value.generation - p.start
  }

  predicate Inv(p: Process) {
    Generations(p.c) && AdmissionCurrent(p.c) && Working(p)
  }

  const START: Process := Process(FRESH, None, 0, 0)

  lemma PassKeepsInv(p: Process, r: Return)
    requires Inv(p) && p.worker.Some?
    ensures Inv(After(p, PassReturns(r)))
    ensures p.c.applied <= After(p, PassReturns(r)).c.applied
    ensures p.c.closed ==> After(p, PassReturns(r)).c.closed
  {
    var target := p.worker.value;
    var c := Reread(p.c, target, r);
    assert Generations(c);
    if Superseded(p.c, target, r) {
      assert target.generation < c.observed;
    }
  }

  lemma ReloadKeepsInv(p: Process, result: ReloadResult)
    requires Inv(p) && Possible(p, ReloadEnds(result))
    ensures Inv(After(p, ReloadEnds(result)))
    ensures p.c.applied == After(p, ReloadEnds(result)).c.applied
    ensures p.c.closed == After(p, ReloadEnds(result)).c.closed
  {
  }

  lemma StepKeepsInv(p: Process, step: Step)
    requires Inv(p) && Possible(p, step)
    ensures Inv(After(p, step))
    ensures p.c.applied <= After(p, step).c.applied
    ensures p.c.closed ==> After(p, step).c.closed
  {
    match step
    case PassReturns(r) => PassKeepsInv(p, r);
    case ReloadEnds(result) => ReloadKeepsInv(p, result);
    case _ =>
  }

  // ----- runs -------------------------------------------------------------------------------------------

  ghost predicate IsRun(ps: seq<Process>, steps: seq<Step>) {
    && |ps| == |steps| + 1
    && ps[0] == START
    && forall k :: 0 <= k < |steps| ==> Possible(ps[k], steps[k]) && ps[k + 1] == After(ps[k], steps[k])
  }

  lemma {:induction false} RunKeepsInv(ps: seq<Process>, steps: seq<Step>, k: nat)
    requires IsRun(ps, steps)
    requires k < |ps|
    ensures Inv(ps[k])
  {
    if k > 0 {
      RunKeepsInv(ps, steps, k - 1);
      StepKeepsInv(ps[k - 1], steps[k - 1]);
    }
  }

  /** Admission implies currency, in every interleaving. */
  lemma OpenMeansCurrent(ps: seq<Process>, steps: seq<Step>, k: nat)
    requires IsRun(ps, steps)
    requires k < |ps|
    ensures ps[k].c.applied <= ps[k].c.observed
    ensures ps[k].c.barrier.Clear() ==>
              && ps[k].c.applied == ps[k].c.observed && ps[k].c.appliedSnapshot == ps[k].c.snapshot
              && !ps[k].c.closed && ps[k].worker.None?
  {
    RunKeepsInv(ps, steps, k);
  }

  /** The applied generation never goes back, and nothing reopens admission after the close. */
  lemma {:induction false} NeverBack(ps: seq<Process>, steps: seq<Step>, k: nat, m: nat)
    requires IsRun(ps, steps)
    requires k <= m < |ps|
    ensures ps[k].c.applied <= ps[m].c.applied
    ensures ps[k].c.closed ==> ps[m].c.closed && !ps[m].c.barrier.Clear()
    decreases m
  {
    RunKeepsInv(ps, steps, m);
    if k < m {
      NeverBack(ps, steps, k, m - 1);
      RunKeepsInv(ps, steps, m - 1);
      StepKeepsInv(ps[m - 1], steps[m - 1]);
    }
  }

  /** The worker's loop makes at most one pass more than there were observations during it. */
  lemma PassesBounded(ps: seq<Process>, steps: seq<Step>, k: nat)
    requires IsRun(ps, steps)
    requires k < |ps| && ps[k].worker.Some?
    ensures ps[k].passes <= 1 + ps[k].c.observed - ps[k].start
  {
    RunKeepsInv(ps, steps, k);
  }

  // ----- a reload that did not unload ---------------------------------------------------------------------

  /**
   Were a reload to report success without the unload, admission would stay truthful exactly
   when publication is closed or nothing was observed since the applied generation.
   */
  lemma ReloadWithoutUnload(p: Process)
    requires Inv(p) && p.c.task.Some? && p.c.task.value.Reloading?
    ensures AdmissionCurrent(EndReload(p.c, p.c.task.value.reload, Reloaded)) <==>
            p.c.closed || p.c.applied == p.c.observed
  {
  }

  const FIRST: Reading := Read("one", map["zone" := "a"])
  const SECOND: Reading := Read("two", map["zone" := "b"])
  const THIRD: Reading := Read("three", map["zone" := "c"])

  const ONE: EntrySnapshot := EntrySnapshot(1, "one", map["zone" := "a"])
  const TWO: EntrySnapshot := EntrySnapshot(2, "two", map["zone" := "b"])

  /** The first configuration has been published. */
  const PUBLISHED: Process :=
    Process(FRESH.(observed := 1, applied := 1, snapshot := Some(ONE), appliedSnapshot := Some(ONE), platform := Some(ONE)),
            None, 1, 1)

  /** A changed zone has been published, and its reload is under way. */
  const RELOADING: Process :=
    Process(PUBLISHED.c.(observed := 2, applied := 2, snapshot := Some(TWO), appliedSnapshot := Some(TWO),
            reloadPending := true, reload := Some(Reload(2, "two")), task := Some(Reloading(Reload(2, "two"))),
            barrier := Barrier(true, false, false)),
            None, 2, 1)

  predicate Leads(p: Process, steps: seq<Step>, q: Process)
    decreases |steps|
  {
    if steps == [] then p == q else Possible(p, steps[0]) && Leads(After(p, steps[0]), steps[1..], q)
  }

  const TO_PUBLISHED: seq<Step> := [Observed(FIRST), WorkerStarts, PassReturns(Return(true, FIRST, FIRST))]

  const TO_RELOADING: seq<Step> :=
    [Observed(SECOND), WorkerStarts, PassReturns(Return(true, SECOND, SECOND)), ReloadTick, ReloadEnters]

  lemma PublishedIsReachable()
    ensures Leads(START, TO_PUBLISHED, PUBLISHED)
  {
    var p := After(After(START, Observed(FIRST)), WorkerStarts);
    assert After(p, PassReturns(Return(true, FIRST, FIRST))) == PUBLISHED;
    assert Leads(p, [PassReturns(Return(true, FIRST, FIRST))], PUBLISHED);
  }

  lemma ReloadingIsReachable()
    ensures Leads(PUBLISHED, TO_RELOADING, RELOADING)
  {
    var p := After(After(PUBLISHED, Observed(SECOND)), WorkerStarts);
    assert "zone" in TWO.zones;
    var q := After(p, PassReturns(Return(true, SECOND, SECOND)));
    assert q.c == RELOADING.c.(scheduled := true, task := None);
    assert Leads(q, [ReloadTick, ReloadEnters], RELOADING);
    assert Leads(p, [PassReturns(Return(true, SECOND, SECOND)), ReloadTick, ReloadEnters], RELOADING);
  }

  /** From the start a reload gets under way; a third configuration observed while it runs would be admitted unapplied. */
  lemma OvertakenReload()
    ensures Leads(START, TO_PUBLISHED, PUBLISHED) && Leads(PUBLISHED, TO_RELOADING, RELOADING)
    ensures var c := EndReload(Observe(RELOADING.c, THIRD), Reload(2, "two"), Reloaded);
            c.barrier.Clear() && c.applied == 2 && c.observed == 3
  {
    PublishedIsReachable();
    ReloadingIsReachable();
  }

  // ----- the coordinator --------------------------------------------------------------------------------

  class ConfigurationReconciliation {
    var observed: nat
    var applied: nat
    var snapshot: Option<EntrySnapshot>
    var appliedSnapshot: Option<EntrySnapshot>
    var dirty: bool
    var reconciling: bool
    var failed: bool
    var closed: bool
    var platform: Option<EntrySnapshot>
    var refused: Option<string>
    var reloadPending: bool
    var reload: Option<Reload>
    var scheduled: bool
    var task: Option<ReloadTask>
    var barrier: Barrier

    ghost function View(): Coordinator
      reads this
    {
      Coordinator(observed, applied, snapshot, appliedSnapshot, dirty, reconciling, failed, closed,
                  platform, refused, reloadPending, reload, scheduled, task, barrier)
    }

    constructor ()
      ensures View() == FRESH
    {
      observed, applied, snapshot, appliedSnapshot := 0, 0, None, None;
      dirty, reconciling, failed, closed := false, false, false, false;
      platform, refused, reloadPending, reload := None, None, false, None;
      scheduled, task, barrier := false, None, OPEN;
    }

    /** The only work done directly by a notification. */
    method ObserveCurrent(reading: Reading)
      modifies this
      ensures View() == Observe(old(View()), reading)
    {
      observed := observed + 1;
      snapshot := Capture(reading, observed);
      dirty := true;
      failed := snapshot.None?;
      barrier := barrier.With(Some(true), None, Some(failed));
    }

    method FailClosed()
      modifies this
      ensures View() == Fail(old(View()))
    {
      dirty, reconciling, failed := true, false, true;
      barrier := Barrier(true, false, true);
    }

    method Queue(target: EntrySnapshot)
      modifies this
      ensures View() == QueueReload(old(View()), target)
    {
      reloadPending := true;
      reload := Some(Reload(target.generation, target.fingerprint));
      barrier := Barrier(true, false, false);
      if !scheduled && task.None? {
        scheduled := true;
      }
    }

    method CancelPendingReload()
      modifies this
      ensures View() == CancelReload(old(View()))
    {
      scheduled := false;
      if task.None? {
        reloadPending, reload := false, None;
      }
    }

    method AdoptTarget(target: EntrySnapshot)
      modifies this
      ensures View() == Adopt(old(View()), target)
    {
      applied, appliedSnapshot := target.generation, Some(target);
      dirty, reconciling, failed := false, false, false;
      if platform.None? {
        platform := Some(target);
      }
    }

    /** No suspension between the last look at the generation and the admission decision. */
    method PublishTarget(target: EntrySnapshot)
      modifies this
      ensures View() == Publish(old(View()), target)
    {
      var required := ReloadRequired(platform, target);
      AdoptTarget(target);
      if refused == Some(target.fingerprint) {
        FailClosed();
      } else if required {
        Queue(target);
      } else {
        CancelPendingReload();
        barrier := OPEN;
      }
    }

    method BeginNextPass() returns (target: Option<EntrySnapshot>)
      modifies this
      ensures (View(), target) == BeginPass(old(View()))
    {
      target := None;
      if !closed {
        if snapshot.None? {
          FailClosed();
        } else {
          target := snapshot;
          reconciling, failed := true, false;
          barrier := Barrier(true, true, false);
        }
      }
    }

    /** After the await: fail, publish, or ask for another pass. */
    method FinishThisPass(target: EntrySnapshot, r: Return) returns (again: bool)
      modifies this
      ensures View() == FinishPass(old(View()), target, r)
      ensures again == Superseded(old(View()), target, r)
    {
      again := false;
      if !r.ok {
        FailClosed();
        return;
      }
      if closed {
        return;
      }
      if observed == target.generation {
        if r.reread.Unreadable? {
          FailClosed();
          return;
        }
        if r.reread.fingerprint != target.fingerprint {
          ObserveCurrent(r.again);
        }
      }
      if closed || observed != target.generation || snapshot != Some(target) {
        again := true;
        return;
      }
      PublishTarget(target);
    }

    /** The worker's loop. `others` are the awaits, in order: what else ran, and what came back. */
    method RunLatestLoop(others: seq<Await>) returns (target: Option<EntrySnapshot>)
      modifies this
      ensures (View(), target) == Loop(old(View()), others)
    {
      var i := 0;
      target := BeginNextPass();
      while i < |others| && target.Some?
        invariant 0 <= i <= |others|
        invariant Continue(View(), target, others[i..]) == Loop(old(View()), others)
        decreases |others| - i
      {
        assert others[i..][0] == others[i] && others[i..][1..] == others[i + 1..];
        Meanwhile(others[i]);
        var again := FinishThisPass(target.value, others[i].result);
        if again {
          target := BeginNextPass();
        } else {
          target := None;
        }
        i := i + 1;
      }
    }

    /** Notifications and the close, while the worker awaits. */
    method Meanwhile(a: Await)
      modifies this
      ensures View() == Interleaved(old(View()), a)
    {
      for k := 0 to |a.readings|
        invariant ObserveAll(View(), a.readings[k..]) == ObserveAll(old(View()), a.readings)
      {
        assert a.readings[k..][0] == a.readings[k] && a.readings[k..][1..] == a.readings[k + 1..];
        ObserveCurrent(a.readings[k]);
      }
      if a.closes {
        ClosePublicationNow();
      }
    }

    method ClosePublicationNow()
      modifies this
      ensures View() == ClosePublication(old(View()))
    {
      closed, dirty := true, true;
      barrier := barrier.With(Some(true), Some(false), None);
      CancelPendingReload();
    }
  }

  /** One await of the worker: what was observed meanwhile, whether publication closed, the result. */
  datatype Await = Await(readings: seq<Reading>, closes: bool, result: Return)

  function ObserveAll(c: Coordinator, readings: seq<Reading>): Coordinator
    decreases |readings|
  {
    if readings == [] then c else ObserveAll(Observe(c, readings[0]), readings[1..])
  }

  function Interleaved(c: Coordinator, a: Await): Coordinator {
    if a.closes then ClosePublication(ObserveAll(c, a.readings)) else ObserveAll(c, a.readings)
  }

  function Continue(c: Coordinator, target: Option<EntrySnapshot>, others: seq<Await>): (Coordinator, Option<EntrySnapshot>)
    decreases |others|
  {
    if others == [] || target.None? then (c, target)
    else
      var during := Interleaved(c, others[0]);
      var finished := FinishPass(during, target.value, others[0].result);
      if Superseded(during, target.value, others[0].result) then
        Continue(BeginPass(finished).0, BeginPass(finished).1, others[1..])
      else Continue(finished, None, others[1..])
  }

  function Loop(c: Coordinator, others: seq<Await>): (Coordinator, Option<EntrySnapshot>) {
    Continue(BeginPass(c).0, BeginPass(c).1, others)
  }

  // ----- the loop as a run ------------------------------------------------------------------------------------

  lemma {:induction false} ObserveAllKeepsInv(p: Process, readings: seq<Reading>)
    requires Inv(p)
    ensures Inv(p.(c := ObserveAll(p.c, readings)))
    ensures ObserveAll(p.c, readings).observed == p.c.observed + |readings|
    ensures ObserveAll(p.c, readings).applied == p.c.applied && ObserveAll(p.c, readings).closed == p.c.closed
    decreases |readings|
  {
    if readings != [] {
      StepKeepsInv(p, Observed(readings[0]));
      ObserveAllKeepsInv(After(p, Observed(readings[0])), readings[1..]);
    }
  }

  /** The worker's loop ends, or waits, in a state where admission implies currency. */
  lemma {:induction false} LoopKeepsInv(p: Process, others: seq<Await>)
    requires Inv(p)
    ensures var (c, target) := Continue(p.c, p.worker, others);
            Generations(c) && AdmissionCurrent(c) && (target.Some? ==> !c.barrier.Clear())
    ensures p.c.applied <= Continue(p.c, p.worker, others).0.applied
    decreases |others|
  {
    if others != [] && p.worker.Some? {
      var a := others[0];
      ObserveAllKeepsInv(p, a.readings);
      var q := p.(c := ObserveAll(p.c, a.readings));
      StepKeepsInv(q, Closes);
      var r := if a.closes then After(q, Closes) else q;
      PassKeepsInv(r, a.result);
      LoopKeepsInv(After(r, PassReturns(a.result)), others[1..]);
    }
  }
}
