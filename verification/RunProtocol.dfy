/**
 The verified write and the run-id protocol on top of it. A write counts only if reading it back
 returns the very payload; a write that did not verify may still have reached the disk.
 */
module RunProtocol {
  import opened Vocabulary

  datatype RunIds = RunIds(active: Option<string>, clean: Option<string>) {
    /** Clean only when both ids are present and equal. */
    predicate PreviousRunWasClean() {
      active.Some? && active == clean
    }
  }

  /** A Store payload: its revision, the run ids, and everything else. */
  datatype Payload = Payload(revision: nat, run: RunIds, body: string)

  /** What becomes of one save: whether it reached the disk, and whether it could be read back. */
  datatype Fate = Fate(landed: bool, readable: bool)

  predicate Verified(fate: Fate, before: Payload, after: Payload) {
    fate.readable && (fate.landed || before == after)
  }

  class SafetyStore {
    var data: Payload
    var disk: Payload

    constructor (disk: Payload)
      ensures this.data == disk && this.disk == disk
    {
      this.data, this.disk := disk, disk;
    }

    /** Save, read back, compare; adopt only what the disk is known to hold. */
    method SaveAndVerify(payload: Payload, fate: Fate) returns (verified: bool)
      modifies this
      ensures disk == (if fate.landed then payload else old(disk))
      ensures verified == Verified(fate, old(disk), payload)
      ensures data == (if verified then payload else old(data))
      ensures verified ==> data == disk
    {
      if fate.landed {
        disk := payload;
      }
      verified := fate.readable && disk == payload;
      if verified {
        data := payload;
      }
    }

    /** Take over the previous ids and write the new one; the clean marker is left as it is. */
    method BeginNewRun(id: string, fate: Fate) returns (previous: RunIds, verified: bool)
      modifies this
      ensures previous == old(data.run)
      ensures data.run == (if verified then Begun(old(data.run), id) else old(data.run))
      ensures disk.run == (if fate.landed then Begun(old(data.run), id) else old(disk.run))
      ensures verified ==> data == disk
    {
      previous := data.run;
      verified := SaveAndVerify(Payload(data.revision + 1, Begun(previous, id), data.body), fate);
    }

    method MarkCleanShutdown(fate: Fate) returns (verified: bool)
      modifies this
      ensures data.run == (if verified then MarkedClean(old(data.run)) else old(data.run))
      ensures disk.run == (if fate.landed then MarkedClean(old(data.run)) else old(disk.run))
      ensures verified ==> data == disk
    {
      verified := SaveAndVerify(Payload(data.revision + 1, MarkedClean(data.run), data.body), fate);
    }

    /** Every other write keeps the ids. */
    method Update(body: string, fate: Fate) returns (verified: bool)
      modifies this
      ensures data.run == old(data.run)
      ensures disk.run == (if fate.landed then old(data.run) else old(disk.run))
      ensures verified ==> data == disk && data.body == body
    {
      verified := SaveAndVerify(Payload(data.revision + 1, data.run, body), fate);
    }
  }

  function Begun(run: RunIds, id: string): RunIds {
    RunIds(Some(id), run.clean)
  }

  function MarkedClean(run: RunIds): RunIds {
    RunIds(run.active, run.active)
  }

  // ----- histories ---------------------------------------------------------------------------------

  /**
   The ids on disk and, while a run is alive, in memory; beside them what an observer knows:
   every id ever used, the last run whose begin-write reached the disk, the runs that issued
   their clean marker, and those whose marker was verified.
   */
  datatype Log = Log(
    disk: RunIds,
    live: Option<RunIds>,
    used: set<string>,
    latest: Option<string>,
    issued: set<string>,
    confirmed: set<string>)

  datatype Step =
    | Start(id: string, landed: bool, verified: bool)
    | Mark(landed: bool, verified: bool)
    | Write(landed: bool)
    | End

  /** Ids are fresh, runs do not overlap, and a verified write has landed. */
  predicate Possible(g: Log, step: Step) {
    match step
    case Start(id, landed, verified) => g.live.None? && id !in g.used && (verified ==> landed)
    case Mark(landed, verified) => g.live.Some? && (verified ==> landed)
    case Write(_) => g.live.Some?
    case End => true
  }

  /** A start whose write is not verified never becomes a run. */
  function After(g: Log, step: Step): Log
    requires Possible(g, step)
  {
    match step
    case Start(id, landed, verified) =>
      g.(disk := if landed then Begun(g.disk, id) else g.disk,
      live := if verified then Some(Begun(g.disk, id)) else None,
      used := g.used + {id},
      latest := if landed then Some(id) else g.latest)
    case Mark(landed, verified) =>
      var run := g.live.value;
      var ids := if run.active.Some? then {run.active.value} else {};
      g.(disk := if landed then MarkedClean(run) else g.disk,
      live := Some(if verified then MarkedClean(run) else run),
      issued := g.issued + ids,
      confirmed := if verified then g.confirmed + ids else g.confirmed)
    case Write(landed) => g.(disk := if landed then g.live.value else g.disk)
    case End => g.(live := None)
  }

  predicate Vouched(run: RunIds, g: Log) {
    && run.active == g.latest
    && (run.clean.Some? ==> run.clean.value in g.issued)
    && (run.active.Some? && run.active.value in g.confirmed ==> run.clean == run.active)
  }

  predicate Inv(g: Log) {
    && g.confirmed <= g.issued <= g.used
    && (g.latest.Some? ==> g.latest.value in g.used)
    && Vouched(g.disk, g)
    && (g.live.Some? ==> Vouched(g.live.value, g))
  }

  const BLANK_LOG: Log := Log(RunIds(None, None), None, {}, None, {}, {})

  lemma StepKeepsInv(g: Log, step: Step)
    requires Inv(g) && Possible(g, step)
    ensures Inv(After(g, step))
  {
  }

  ghost predicate IsHistory(gs: seq<Log>, steps: seq<Step>) {
    && |gs| == |steps| + 1
    && gs[0] == BLANK_LOG
    && forall k :: 0 <= k < |steps| ==> Possible(gs[k], steps[k]) && gs[k + 1] == After(gs[k], steps[k])
  }

  lemma {:induction false} HistoryKeepsInv(gs: seq<Log>, steps: seq<Step>, k: nat)
    requires IsHistory(gs, steps)
    requires k < |gs|
    ensures Inv(gs[k])
  {
    if k > 0 {
      HistoryKeepsInv(gs, steps, k - 1);
      StepKeepsInv(gs[k - 1], steps[k - 1]);
    }
  }

  /**
   In every history of starts, writes, crashes and shutdowns: a start that finds the previous
   run clean follows a latest run that issued its own marker, and a latest run whose marker was
   verified is found clean.
   */
  lemma CleanMeansLatestRunEndedClean(gs: seq<Log>, steps: seq<Step>, k: nat)
    requires IsHistory(gs, steps)
    requires k < |steps| && steps[k].Start?
    ensures gs[k].disk.PreviousRunWasClean() ==> gs[k].latest.Some? && gs[k].latest.value in gs[k].issued
    ensures gs[k].latest.Some? && gs[k].latest.value in gs[k].confirmed ==> gs[k].disk.PreviousRunWasClean()
    ensures forall id :: id in gs[k].issued && gs[k].latest != Some(id) ==>
                           gs[k].disk.clean == Some(id) ==> !gs[k].disk.PreviousRunWasClean()
  {
    HistoryKeepsInv(gs, steps, k);
  }
}
