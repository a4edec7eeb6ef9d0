/** The progress ledger and the per-company transition of collect_all. The
    world of the collector is the ledger in memory, the ledger file on disk,
    the files under data/raw and the log of remote calls; `Step` says what
    one company does to it and `Run` what a pass over the input list does.
    DartCollector.CollectAll is proved against `Run`. */
module Ledger {
  import opened Text
  import opened DartApi
  import opened Filings

  /** The failure reasons recorded by collect_all. */
  const ResolveFailed: string := "고유번호 조회 실패"
  const ProfileFailed: string := "개황 수집 실패"

  /** How many failures the end-of-run summary lists. */
  const ShownFailures: nat := 10

  /** `{'corp_name': ..., 'reason': ...}`. */
  datatype FailRecord = FailRecord(corpName: string, reason: string)

  /** `{'completed': [...], 'failed': [...]}`. */
  datatype Progress = Progress(completed: seq<string>, failed: seq<FailRecord>)

  /** load_progress: the saved ledger if progress.json exists, else an
      empty one. */
  function LoadProgress(file: Option<Progress>): (p: Progress)
    ensures file.None? ==> p.completed == [] && p.failed == []
    ensures file.Some? ==> p == file.value
  {
    if file.Some? then file.value else Progress([], [])
  }

  /** The collector's state: the ledger in memory, progress.json (None while
      it does not exist), the paths that exist under data/raw, and the
      remote calls made so far. */
  datatype World = World(progress: Progress, stored: Option<Progress>, files: set<string>, trace: seq<Call>)

  /** A restart would load exactly the ledger held in memory. */
  predicate Durable(w: World)
  {
    LoadProgress(w.stored) == w.progress
  }

  /** The world after one company, and whether the loop stops there. */
  datatype StepOutcome = StepOutcome(world: World, halted: bool)

  /** save_progress. */
  function Save(w: World): World
  {
    w.(stored := Some(w.progress))
  }

  /** Append a failure record, then save. */
  function RecordFailure(w: World, corpName: string, reason: string): World
  {
    Save(w.(progress := w.progress.(failed := w.progress.failed + [FailRecord(corpName, reason)])))
  }

  /** Append the company to `completed`, then save. */
  function RecordSuccess(w: World, corpName: string): World
  {
    Save(w.(progress := w.progress.(completed := w.progress.completed + [corpName])))
  }

  /** The two `except` clauses of collect_all. */
  function Abandon(w: World, corpName: string, kind: FaultKind): StepOutcome
  {
    match kind
    case Interrupt => StepOutcome(Save(w), true)
    case Raise(message) => StepOutcome(RecordFailure(w, corpName, message), false)
  }

  /** One iteration of the loop of collect_all, for the company at position
      `idx` of the input list. */
  function Step(env: Remote, plan: Plan, idx: nat, corpName: string, w: World): StepOutcome
  {
    if corpName in w.progress.completed then StepOutcome(w, false)
    else if env.fault(idx, BeforeResolve).Some? then Abandon(w, corpName, env.fault(idx, BeforeResolve).value)
    else
      var w1 := w.(trace := w.trace + [DirectoryCall]);
      var code := Resolve(env.directory, corpName);
      if code.None? || code.value == "" then StepOutcome(RecordFailure(w1, corpName, ResolveFailed), false)
      else if env.fault(idx, BeforeProfile).Some? then Abandon(w1, corpName, env.fault(idx, BeforeProfile).value)
      else
        var corpCode := code.value;
        var w2 := w1.(trace := w1.trace + [ProfileCall(corpCode)]);
        if ProfileGate(env.profile(corpCode)).None? then StepOutcome(RecordFailure(w2, corpName, ProfileFailed), false)
        else
          var w3 := w2.(files := w2.files + {ProfilePath(corpCode)});
          if env.fault(idx, BeforeFilings).Some? then Abandon(w3, corpName, env.fault(idx, BeforeFilings).value)
          else
            var h := Harvested(env, corpCode, corpName, plan.types, Harvest(w3.files, w3.trace, []), plan.years);
            var w4 := w3.(files := h.files, trace := h.trace);
            if env.fault(idx, BeforeRecord).Some? then Abandon(w4, corpName, env.fault(idx, BeforeRecord).value)
            else StepOutcome(RecordSuccess(w4, corpName), false)
  }

  /** A per-company transition: position in the input list, company name,
      world before. */
  type Transition = (nat, string, World) -> StepOutcome

  /** The loop of collect_all over the first `n` companies of `names`: each
      company is handed to `step` until one of them halts the loop. */
  function Pass(step: Transition, names: seq<string>, w: World, n: nat): StepOutcome
    requires n <= |names|
  {
    if n == 0 then StepOutcome(w, false)
    else
      var o := Pass(step, names, w, n - 1);
      if o.halted then o else step(n - 1, names[n - 1], o.world)
  }

  /** The collector's own transition. */
  function CollectorStep(env: Remote, plan: Plan): Transition
  {
    (idx: nat, corpName: string, w: World) => Step(env, plan, idx, corpName, w)
  }

  /** The loop of collect_all over the first `n` companies. */
  function Run(env: Remote, plan: Plan, names: seq<string>, w: World, n: nat): StepOutcome
    requires n <= |names|
  {
    Pass(CollectorStep(env, plan), names, w, n)
  }

  /** What the end-of-run summary prints. */
  datatype Summary = Summary(completed: nat, failed: nat, shown: seq<FailRecord>, more: nat)

  /** The summary of a ledger: both counts, the first ten failures, and how
      many failures are left unlisted. */
  function Summarize(p: Progress): (s: Summary)
    ensures s.completed == |p.completed| && s.failed == |p.failed|
    ensures |s.shown| == Min(|p.failed|, ShownFailures) && s.shown <= p.failed
    ensures |s.shown| + s.more == |p.failed|
  {
    var n := Min(|p.failed|, ShownFailures);
    Summary(|p.completed|, |p.failed|, p.failed[..n], |p.failed| - n)
  }

  // ---------------------------------------------------------------------
  // Properties of one step

  /** A company already in `completed` is skipped: no remote call, and the
      ledger, the file and the disk are untouched. */
  lemma StepSkipsCompleted(env: Remote, plan: Plan, idx: nat, corpName: string, w: World)
    requires corpName in w.progress.completed
    ensures Step(env, plan, idx, corpName, w) == StepOutcome(w, false)
  {
  }

  /** A failed lookup appends exactly one record with the lookup reason,
      leaves `completed` alone, saves, and lets the loop go on. */
  lemma StepResolveFailure(env: Remote, plan: Plan, idx: nat, corpName: string, w: World)
    requires corpName !in w.progress.completed && env.fault(idx, BeforeResolve).None?
    requires var code := Resolve(env.directory, corpName); code.None? || code.value == ""
    ensures var o := Step(env, plan, idx, corpName, w);
      && !o.halted
      && o.world.progress == Progress(w.progress.completed, w.progress.failed + [FailRecord(corpName, ResolveFailed)])
      && o.world.stored == Some(o.world.progress)
      && o.world.files == w.files
      && o.world.trace == w.trace + [DirectoryCall]
  {
  }

  /** A failed profile fetch appends exactly one record with the profile
      reason, leaves `completed` alone, saves, and lets the loop go on. */
  lemma StepProfileFailure(env: Remote, plan: Plan, idx: nat, corpName: string, w: World)
    requires corpName !in w.progress.completed
    requires env.fault(idx, BeforeResolve).None? && env.fault(idx, BeforeProfile).None?
    requires var code := Resolve(env.directory, corpName);
      code.Some? && code.value != "" && ProfileGate(env.profile(code.value)).None?
    ensures var o := Step(env, plan, idx, corpName, w);
      && !o.halted
      && o.world.progress == Progress(w.progress.completed, w.progress.failed + [FailRecord(corpName, ProfileFailed)])
      && o.world.stored == Some(o.world.progress)
      && o.world.files == w.files
      && o.world.trace == w.trace + [DirectoryCall, ProfileCall(Resolve(env.directory, corpName).value)]
  {
    assert w.trace + [DirectoryCall] + [ProfileCall(Resolve(env.directory, corpName).value)]
        == w.trace + [DirectoryCall, ProfileCall(Resolve(env.directory, corpName).value)];
  }

  /** A company that gets through lookup, profile and filings without a
      fault is appended to `completed` (and nothing else to the ledger),
      its profile is on disk, and the ledger is saved. */
  lemma StepSuccess(env: Remote, plan: Plan, idx: nat, corpName: string, w: World)
    requires corpName !in w.progress.completed
    requires forall s: Stage :: env.fault(idx, s).None?
    requires var code := Resolve(env.directory, corpName);
      code.Some? && code.value != "" && ProfileGate(env.profile(code.value)).Some?
    ensures var o := Step(env, plan, idx, corpName, w);
      && !o.halted
      && o.world.progress == Progress(w.progress.completed + [corpName], w.progress.failed)
      && o.world.stored == Some(o.world.progress)
      && ProfilePath(Resolve(env.directory, corpName).value) in o.world.files
      && w.files <= o.world.files
  {
    var code := Resolve(env.directory, corpName).value;
    var w3 := w.(trace := w.trace + [DirectoryCall] + [ProfileCall(code)], files := w.files + {ProfilePath(code)});
    HarvestedExtends(env, code, corpName, plan.types, Harvest(w3.files, w3.trace, []), plan.years);
  }

  /** The fault that reaches the `except` clauses of collect_all for the
      company at position `idx`: the fault of the first stage the company
      gets to at which one arrives, or None. A company gets to the profile
      only after a lookup that gave a code, and to the filings and the
      success record only after a profile that was accepted. */
  function FirstFault(env: Remote, idx: nat, corpName: string): Option<FaultKind>
  {
    if env.fault(idx, BeforeResolve).Some? then env.fault(idx, BeforeResolve)
    else
      var code := Resolve(env.directory, corpName);
      if code.None? || code.value == "" then None
      else if env.fault(idx, BeforeProfile).Some? then env.fault(idx, BeforeProfile)
      else if ProfileGate(env.profile(code.value)).None? then None
      else if env.fault(idx, BeforeFilings).Some? then env.fault(idx, BeforeFilings)
      else env.fault(idx, BeforeRecord)
  }

  /** The two `except` clauses, whatever the stage: an unexpected exception
      appends exactly `{corp_name, str(e)}` and the loop goes on; an
      interrupt saves the ledger as it is and stops the loop. Without a fault
      the loop goes on. Every path saves the ledger. */
  lemma StepFault(env: Remote, plan: Plan, idx: nat, corpName: string, w: World)
    requires corpName !in w.progress.completed
    ensures var o := Step(env, plan, idx, corpName, w);
      && o.world.stored == Some(o.world.progress)
      && match FirstFault(env, idx, corpName)
         case None => !o.halted
         case Some(Interrupt) => o.halted && o.world.progress == w.progress
         case Some(Raise(m)) =>
           !o.halted && o.world.progress == Progress(w.progress.completed, w.progress.failed + [FailRecord(corpName, m)])
  {
  }

  /** The loop stops only on an interrupt. */
  lemma StepHaltsOnlyOnInterrupt(env: Remote, plan: Plan, idx: nat, corpName: string, w: World)
    requires Step(env, plan, idx, corpName, w).halted
    ensures FirstFault(env, idx, corpName) == Some(Interrupt)
    ensures exists s: Stage :: env.fault(idx, s) == Some(Interrupt)
  {
    if env.fault(idx, BeforeResolve) == Some(Interrupt) {
    } else if env.fault(idx, BeforeProfile) == Some(Interrupt) {
    } else if env.fault(idx, BeforeFilings) == Some(Interrupt) {
    } else {
      assert env.fault(idx, BeforeRecord) == Some(Interrupt);
    }
  }

  /** The ledger only grows: each list of the new ledger extends the old
      one, and `completed` gains at most this company. */
  ghost predicate Appends(p: Progress, p': Progress)
  {
    p.completed <= p'.completed && p.failed <= p'.failed
  }

  lemma StepAppends(env: Remote, plan: Plan, idx: nat, corpName: string, w: World)
    ensures var p' := Step(env, plan, idx, corpName, w).world.progress;
      && Appends(w.progress, p')
      && (|| p'.completed == w.progress.completed
          || (corpName !in w.progress.completed && p'.completed == w.progress.completed + [corpName]))
  {
  }

  /** Every step leaves the ledger file equal to the ledger in memory. */
  lemma StepDurable(env: Remote, plan: Plan, idx: nat, corpName: string, w: World)
    requires Durable(w)
    ensures Durable(Step(env, plan, idx, corpName, w).world)
  {
  }

  /** Disk and call log only grow. */
  lemma StepGrows(env: Remote, plan: Plan, idx: nat, corpName: string, w: World)
    ensures var w' := Step(env, plan, idx, corpName, w).world;
      w.files <= w'.files && w.trace <= w'.trace
  {
    if corpName !in w.progress.completed && env.fault(idx, BeforeResolve).None? {
      var code := Resolve(env.directory, corpName);
      if code.Some? && code.value != "" && env.fault(idx, BeforeProfile).None?
         && ProfileGate(env.profile(code.value)).Some? && env.fault(idx, BeforeFilings).None? {
        var w3 := w.(trace := w.trace + [DirectoryCall] + [ProfileCall(code.value)],
                     files := w.files + {ProfilePath(code.value)});
        HarvestedExtends(env, code.value, corpName, plan.types, Harvest(w3.files, w3.trace, []), plan.years);
      }
    }
  }

  // ---------------------------------------------------------------------
  // Properties of a whole pass

  predicate NoDuplicates(s: seq<string>)
  {
    forall i, j :: 0 <= i < j < |s| ==> s[i] != s[j]
  }

  lemma NoDuplicatesSnoc(s: seq<string>, x: string)
    requires NoDuplicates(s) && x !in s
    ensures NoDuplicates(s + [x])
  {
  }

  /** A pass whose every step appends to `completed` at most the company it
      handles, and only when that company is not there yet, keeps
      `completed` free of duplicates. */
  lemma {:induction false} PassKeepsCompletedUnique(step: Transition, names: seq<string>, w: World, n: nat)
    requires n <= |names|
    requires forall idx: nat, corpName: string, v: World ::
      var c' := step(idx, corpName, v).world.progress.completed;
      c' == v.progress.completed || (corpName !in v.progress.completed && c' == v.progress.completed + [corpName])
    requires NoDuplicates(w.progress.completed)
    ensures NoDuplicates(Pass(step, names, w, n).world.progress.completed)
  {
    if n > 0 {
      PassKeepsCompletedUnique(step, names, w, n - 1);
      var o := Pass(step, names, w, n - 1);
      if !o.halted {
        var c := o.world.progress.completed;
        if step(n - 1, names[n - 1], o.world).world.progress.completed != c {
          NoDuplicatesSnoc(c, names[n - 1]);
        }
      }
    }
  }

  /** A pass of steps that only append keeps the ledger's earlier entries. */
  lemma {:induction false} PassAppends(step: Transition, names: seq<string>, w: World, n: nat)
    requires n <= |names|
    requires forall idx: nat, corpName: string, v: World :: Appends(v.progress, step(idx, corpName, v).world.progress)
    ensures Appends(w.progress, Pass(step, names, w, n).world.progress)
  {
    if n > 0 {
      PassAppends(step, names, w, n - 1);
    }
  }

  /** A pass of steps that keep the world durable keeps it durable. */
  lemma {:induction false} PassDurable(step: Transition, names: seq<string>, w: World, n: nat)
    requires n <= |names| && Durable(w)
    requires forall idx: nat, corpName: string, v: World :: Durable(v) ==> Durable(step(idx, corpName, v).world)
    ensures Durable(Pass(step, names, w, n).world)
  {
    if n > 0 {
      PassDurable(step, names, w, n - 1);
    }
  }

  /** Once a pass has halted, the companies after that point change nothing. */
  lemma {:induction false} PassHaltIsFinal(step: Transition, names: seq<string>, w: World, n: nat, m: nat)
    requires n <= m <= |names| && Pass(step, names, w, n).halted
    ensures Pass(step, names, w, m) == Pass(step, names, w, n)
    decreases m
  {
    if n < m {
      PassHaltIsFinal(step, names, w, n, m - 1);
    }
  }

  /** `completed` stays free of duplicates: a name is appended only when it
      is not there yet. */
  lemma RunKeepsCompletedUnique(env: Remote, plan: Plan, names: seq<string>, w: World, n: nat)
    requires n <= |names|
    requires NoDuplicates(w.progress.completed)
    ensures NoDuplicates(Run(env, plan, names, w, n).world.progress.completed)
  {
    var step := CollectorStep(env, plan);
    forall idx: nat, corpName: string, v: World
      ensures var c' := step(idx, corpName, v).world.progress.completed;
        c' == v.progress.completed || (corpName !in v.progress.completed && c' == v.progress.completed + [corpName])
    {
      StepAppends(env, plan, idx, corpName, v);
    }
    PassKeepsCompletedUnique(step, names, w, n);
  }

  /** Nothing is ever removed from the ledger in a pass. */
  lemma RunAppends(env: Remote, plan: Plan, names: seq<string>, w: World, n: nat)
    requires n <= |names|
    ensures Appends(w.progress, Run(env, plan, names, w, n).world.progress)
  {
    var step := CollectorStep(env, plan);
    forall idx: nat, corpName: string, v: World
      ensures Appends(v.progress, step(idx, corpName, v).world.progress)
    {
      StepAppends(env, plan, idx, corpName, v);
    }
    PassAppends(step, names, w, n);
  }

  /** After every company, a restart would resume from exactly the ledger
      the run holds in memory. */
  lemma RunDurable(env: Remote, plan: Plan, names: seq<string>, w: World, n: nat)
    requires n <= |names| && Durable(w)
    ensures Durable(Run(env, plan, names, w, n).world)
  {
    var step := CollectorStep(env, plan);
    forall idx: nat, corpName: string, v: World | Durable(v)
      ensures Durable(step(idx, corpName, v).world)
    {
      StepDurable(env, plan, idx, corpName, v);
    }
    PassDurable(step, names, w, n);
  }

  /** Once the loop has stopped on an interrupt, no later company is
      processed: the world stays as it was at the interrupt. */
  lemma RunHaltIsFinal(env: Remote, plan: Plan, names: seq<string>, w: World, n: nat, m: nat)
    requires n <= m <= |names| && Run(env, plan, names, w, n).halted
    ensures Run(env, plan, names, w, m) == Run(env, plan, names, w, n)
  {
    PassHaltIsFinal(CollectorStep(env, plan), names, w, n, m);
  }

  /** A company's failure does not stop the pass: unless an interrupt has
      arrived, the next company not yet completed and not faulted is looked
      up, i.e. the directory is requested for it. */
  lemma RunReachesNextCompany(env: Remote, plan: Plan, names: seq<string>, w: World, n: nat)
    requires n < |names|
    requires !Run(env, plan, names, w, n).halted
    requires names[n] !in Run(env, plan, names, w, n).world.progress.completed
    requires env.fault(n, BeforeResolve).None?
    ensures var before := Run(env, plan, names, w, n).world.trace;
      var after := Run(env, plan, names, w, n + 1).world.trace;
      |before| < |after| && after[..|before| + 1] == before + [DirectoryCall]
  {
    var o := Run(env, plan, names, w, n);
    var o' := Step(env, plan, n, names[n], o.world);
    assert Run(env, plan, names, w, n + 1) == o';
    StepGrows(env, plan, n, names[n], o.world);
    var before := o.world.trace;
    var w1 := o.world.(trace := before + [DirectoryCall]);
    assert o'.world.trace[..|before| + 1] == before + [DirectoryCall] by {
      var code := Resolve(env.directory, names[n]);
      if code.Some? && code.value != "" && env.fault(n, BeforeProfile).None?
         && ProfileGate(env.profile(code.value)).Some? && env.fault(n, BeforeFilings).None? {
        var w3 := w1.(trace := w1.trace + [ProfileCall(code.value)],
                      files := w1.files + {ProfilePath(code.value)});
        HarvestedExtends(env, code.value, names[n], plan.types, Harvest(w3.files, w3.trace, []), plan.years);
        assert w1.trace <= w3.trace;
      }
    }
  }
}
