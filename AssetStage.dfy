/** What the two asset stages (narration and image generation) share: reading
    the plan, splitting the required assets into valid and pending ones, and
    counting the outcome of the generation loop. */
module AssetStage {
  import opened Base
  import opened Plan
  import opened Files

  /** `read_project_file`: the parsed plan, or the message logged before exiting. */
  function ReadProjectFile(fs: Fs, path: string): (r: Result<Plan, string>)
    ensures r.Ok? <==> Exists(fs, path) && fs.entries[path].File? && fs.entries[path].rec.plan.Ok?
    ensures r.Ok? ==> r.value == fs.entries[path].rec.plan.value
  {
    if !Exists(fs, path) then Err("Project file not found: " + path)
    else match fs.entries[path]
      case Dir(_, _) => Err("Failed to read project file: " + IsADirectoryText(path))
      case File(rec) =>
        match rec.plan
        case Err(e) => Err("Invalid JSON in project file: " + e)
        case Ok(plan) => Ok(plan)
  }

  /** The jobs whose asset is not valid yet, in order. */
  function Pending<J>(jobs: seq<J>, valid: J -> bool): seq<J>
    decreases |jobs|
  {
    if jobs == [] then []
    else
      var x := jobs[|jobs| - 1];
      Pending(jobs[..|jobs| - 1], valid) + (if valid(x) then [] else [x])
  }

  /** The pending jobs are exactly the jobs whose asset fails verification, and
      with the valid ones they make up the whole list. */
  lemma {:induction false} PendingMeaning<J>(jobs: seq<J>, valid: J -> bool)
    ensures forall x :: x in Pending(jobs, valid) <==> x in jobs && !valid(x)
    ensures |Pending(jobs, valid)| + Count(jobs, valid) == |jobs|
    decreases |jobs|
  {
    if jobs != [] {
      var init := jobs[..|jobs| - 1];
      PendingMeaning(init, valid);
      assert forall x :: x in jobs <==> x in init || x == jobs[|jobs| - 1];
    }
  }

  /** How many jobs already have a valid asset. */
  function Count<J>(jobs: seq<J>, valid: J -> bool): nat
    decreases |jobs|
  {
    if jobs == [] then 0
    else Count(jobs[..|jobs| - 1], valid) + (if valid(jobs[|jobs| - 1]) then 1 else 0)
  }

  /** `_check_existing_audio` / `check_existing_images`: verify each required
      asset in turn, counting the valid ones and keeping the others. */
  method CheckExisting<J>(jobs: seq<J>, valid: J -> bool) returns (pending: seq<J>, existing: nat)
    ensures pending == Pending(jobs, valid)
    ensures existing == Count(jobs, valid)
    ensures existing + |pending| == |jobs|
  {
    pending, existing := [], 0;
    var i := 0;
    while i < |jobs|
      invariant 0 <= i <= |jobs|
      invariant pending == Pending(jobs[..i], valid)
      invariant existing == Count(jobs[..i], valid)
    {
      assert jobs[..i + 1][..i] == jobs[..i];
      if valid(jobs[i]) {
        existing := existing + 1;
      } else {
        pending := pending + [jobs[i]];
      }
      i := i + 1;
    }
    assert jobs[..i] == jobs;
    PendingMeaning(jobs, valid);
  }

  function Ids<J>(jobs: seq<J>, id: J -> string): (r: seq<string>)
    ensures |r| == |jobs| && forall i :: 0 <= i < |jobs| ==> r[i] == id(jobs[i])
    decreases |jobs|
  {
    if jobs == [] then [] else Ids(jobs[..|jobs| - 1], id) + [id(jobs[|jobs| - 1])]
  }

  /** The generation loop's counters: the ids it worked on, how many succeeded,
      and the ids that failed, in order. */
  datatype Tally = Tally(attempted: seq<string>, succeeded: nat, failed: seq<string>)

  /** The counters after the generation loop over `pending`, where `ok(x)` is the
      outcome of generating `x`. */
  function TallyOf<J>(pending: seq<J>, id: J -> string, ok: J -> bool): Tally
    decreases |pending|
  {
    if pending == [] then Tally([], 0, [])
    else
      var t := TallyOf(pending[..|pending| - 1], id, ok);
      var x := pending[|pending| - 1];
      if ok(x) then Tally(t.attempted + [id(x)], t.succeeded + 1, t.failed)
      else Tally(t.attempted + [id(x)], t.succeeded, t.failed + [id(x)])
  }

  /** Every pending job is attempted, in order, even after a failure; the
      failures are exactly the jobs that did not succeed, in order; and successes
      plus failures make up the pending count. */
  lemma {:induction false} TallyAccounting<J>(pending: seq<J>, id: J -> string, ok: J -> bool)
    ensures var t := TallyOf(pending, id, ok);
      && t.attempted == Ids(pending, id)
      && t.failed == Ids(Pending(pending, ok), id)
      && t.succeeded == Count(pending, ok)
      && t.succeeded + |t.failed| == |pending|
      && (t.failed == [] <==> forall x :: x in pending ==> ok(x))
    decreases |pending|
  {
    if pending != [] {
      var init := pending[..|pending| - 1];
      TallyAccounting(init, id, ok);
      PendingMeaning(pending, ok);
      PendingMeaning(init, ok);
    }
  }

  /** One step of the generation loop. */
  lemma TallyStep<J>(pending: seq<J>, k: nat, id: J -> string, ok: J -> bool)
    requires k < |pending|
    ensures var t := TallyOf(pending[..k], id, ok); var x := pending[k];
      TallyOf(pending[..k + 1], id, ok) ==
        if ok(x) then Tally(t.attempted + [id(x)], t.succeeded + 1, t.failed)
        else Tally(t.attempted + [id(x)], t.succeeded, t.failed + [id(x)])
  {
    assert pending[..k + 1][..k] == pending[..k];
  }

  /** The generation loop over `pending` and the exit code it leads to; with
      nothing pending there is no loop at all. */
  function RunOf<J>(pending: seq<J>, id: J -> string, ok: J -> bool): StageRun {
    if pending == [] then Ran([], Tally([], 0, []), 0)
    else
      var t := TallyOf(pending, id, ok);
      Ran(Ids(pending, id), t, if t.failed == [] then 0 else 1)
  }

  /** The loop attempts every pending job once, in order; successes and failures
      add up to the pending count; every failure is a pending job; and the exit
      code is non-zero exactly when some job failed. */
  lemma RunAccounting<J>(pending: seq<J>, id: J -> string, ok: J -> bool)
    ensures var r := RunOf(pending, id, ok);
      && r.Ran?
      && r.pending == Ids(pending, id)
      && r.tally.attempted == r.pending
      && r.tally.succeeded + |r.tally.failed| == |r.pending|
      && (forall x :: x in r.tally.failed ==> x in r.pending)
      && (ExitCode(r) == 0 <==> forall x :: x in pending ==> ok(x))
  {
    TallyAccounting(pending, id, ok);
    FailedAreAttempted(pending, id, ok);
  }

  lemma {:induction false} FailedAreAttempted<J>(pending: seq<J>, id: J -> string, ok: J -> bool)
    ensures forall x :: x in Ids(Pending(pending, ok), id) ==> x in Ids(pending, id)
    decreases |pending|
  {
    if pending != [] {
      var init := pending[..|pending| - 1];
      FailedAreAttempted(init, id, ok);
      assert Ids(pending, id) == Ids(init, id) + [id(pending[|pending| - 1])];
      assert Ids(init, id) <= Ids(pending, id);
    }
  }

  /** How a stage process ends: it exits early with the logged message, or it
      runs the generation loop over the pending assets and exits with a code. */
  datatype StageRun = Exited(message: string) | Ran(pending: seq<string>, tally: Tally, exitCode: int)

  /** The process's exit status. */
  function ExitCode(r: StageRun): int {
    if r.Exited? then 1 else r.exitCode
  }
}
