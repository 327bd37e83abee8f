// `apply` of edgeos-sync as a transition system: session A stages, schedules
// the rollback and commits; session B, a fresh login, confirms and saves. Any
// session or the client may die at any point, the rollback timer may fire and
// the device may lose power between any two steps.

module CommitConfirm {
  import opened Options
  import opened StagedDiff

  type Config = set<Path>

  // What is fixed for one run: the running and the boot configuration it
  // started from, the desired lines, and what earlier runs left behind: `at`
  // jobs still queued, the copy they load, and the job file.
  datatype Run = Run(live: seq<Path>, boot: Config, desired: seq<Path>,
                     jobs: set<nat>, copy: Option<Config>, file: Option<nat>, next: nat) {
    // A queued job has its copy, and numbers are not given out twice.
    ghost predicate Valid() {
      (jobs != {} ==> copy.Some?) && forall j :: j in jobs ==> j < next
    }

    ghost function Candidate(): Option<Config> {
      Stage(Elements(live), Diff(live, desired).0, Diff(live, desired).1)
    }

    // `main` stops before session A when there is nothing to change.
    ghost predicate HasChanges() {
      Diff(live, desired) != ([], [])
    }
  }

  datatype Device = Device(
    running: Config,
    saved: Config,                // /config/config.boot
    rollback: Option<Config>,     // the copy the rollback job loads
    queue: set<nat>,              // pending at jobs
    jobFile: Option<nat>,         // /var/run/confirm.job
    nextJob: nat)

  datatype Client = InSessionA | InSessionB | Failed | Succeeded

  // Next command of each remote shell; a shell that ended is at Exit.
  datatype SessionA = AStage | ACopy | ASchedule | AWriteJob(job: nat) | ACommit(job: nat)
                    | ACancel(job: nat) | AExit(committed: bool)
  datatype SessionB = BNotOpened | BRead | BConfirm(job: nat) | BCheck(job: nat) | BSave(job: nat)
                    | BExit(saved: bool)

  // `confirmed` records whether session B's confirm has taken a job off the queue.
  datatype State = State(client: Client, a: SessionA, b: SessionB, dev: Device, confirmed: bool)

  ghost predicate Init(r: Run, s: State) {
    && r.Valid() && r.HasChanges()
    && s == State(InSessionA, AStage, BNotOpened,
                  Device(Elements(r.live), r.boot, r.copy, r.jobs, r.file, r.next), false)
  }

  // ---- steps

  ghost predicate StepA(r: Run, s: State, s': State) {
    && s'.client == s.client && s'.b == s.b && s'.confirmed == s.confirmed
    && match s.a
       case AStage =>
         && s'.dev == s.dev
         && (s'.a == AExit(false) || (s'.a == ACopy && r.Candidate().Some?))
       case ACopy =>
         || (s'.a == AExit(false) && s'.dev == s.dev)
         || (s'.a == ASchedule && s'.dev == s.dev.(rollback := Some(s.dev.saved)))
       case ASchedule =>
         || (s'.a == AExit(false) && s'.dev == s.dev)
         || (s'.a == AWriteJob(s.dev.nextJob) &&
             s'.dev == s.dev.(queue := s.dev.queue + {s.dev.nextJob}, nextJob := s.dev.nextJob + 1))
       case AWriteJob(job) =>
         || (s'.a == AExit(false) && s'.dev == s.dev)
         || (s'.a == ACommit(job) && s'.dev == s.dev.(jobFile := Some(job)))
       case ACommit(job) =>
         || (s'.a == ACancel(job) && s'.dev == s.dev)
         || (r.Candidate().Some? && s'.a == AExit(true) && s'.dev == s.dev.(running := r.Candidate().value))
       case ACancel(job) =>
         s'.a == AExit(false) && (s'.dev == s.dev || s'.dev == s.dev.(queue := s.dev.queue - {job}))
       case AExit(_) => false
  }

  // `confirm` may fail, may silently leave the job queued, or cancels the job named in the file.
  ghost predicate StepB(s: State, s': State) {
    && s'.client == s.client && s'.a == s.a
    && match s.b
       case BNotOpened => false
       case BRead =>
         && s'.dev == s.dev && s'.confirmed == s.confirmed
         && (s'.b == BExit(false) || (s.dev.jobFile.Some? && s'.b == BConfirm(s.dev.jobFile.value)))
       case BConfirm(job) =>
         || (s'.b in {BExit(false), BCheck(job)} && s'.dev == s.dev && s'.confirmed == s.confirmed)
         || (s'.b == BCheck(job) && s.dev.jobFile.Some? && s'.confirmed &&
             s'.dev == s.dev.(queue := s.dev.queue - {s.dev.jobFile.value}))
       case BCheck(job) =>
         && s'.dev == s.dev && s'.confirmed == s.confirmed
         && s'.b == if job in s.dev.queue then BExit(false) else BSave(job)
       case BSave(job) =>
         && s'.confirmed == s.confirmed
         && ((s'.b == BExit(false) && s'.dev == s.dev) ||
             (s'.b == BExit(true) && s'.dev == s.dev.(saved := s.dev.running)))
       case BExit(_) => false
  }

  // The client opens session B only when session A exited 0, and reports
  // success only when session B did and the device now reads back as desired.
  ghost predicate StepClient(r: Run, s: State, s': State) {
    && s'.a == s.a && s'.dev == s.dev && s'.confirmed == s.confirmed
    && (|| (s'.client == Failed && s'.b == s.b)
        || (s.client == InSessionA && s.a == AExit(true) && s'.client == InSessionB &&
            s.b == BNotOpened && s'.b == BRead)
        || (s.client == InSessionB && s.b == BExit(true) && s.dev.running == Elements(r.desired) &&
            s'.client == Succeeded && s'.b == s.b))
  }

  function KilledA(a: SessionA): SessionA { if a.AExit? then a else AExit(false) }

  function KilledB(b: SessionB): SessionB { if b.BNotOpened? || b.BExit? then b else BExit(false) }

  ghost predicate SessionDies(s: State, s': State) {
    s' == s.(a := KilledA(s.a)) || s' == s.(b := KilledB(s.b))
  }

  // A reboot ends both shells; the job file may or may not survive it.
  ghost predicate Reboot(s: State, s': State) {
    && s'.client == s.client && s'.confirmed == s.confirmed
    && s'.a == KilledA(s.a) && s'.b == KilledB(s.b)
    && s'.dev.jobFile in {None, s.dev.jobFile}
    && s'.dev.rollback == s.dev.rollback && s'.dev.nextJob == s.dev.nextJob
  }

  // The rollback job puts its copy back as the boot configuration and reboots into it.
  ghost predicate TimerFires(s: State, s': State) {
    && s.dev.queue != {} && s.dev.rollback.Some?
    && Reboot(s, s')
    && s'.dev.running == s'.dev.saved == s.dev.rollback.value
    && s'.dev.queue < s.dev.queue
  }

  ghost predicate PowerLoss(s: State, s': State) {
    && Reboot(s, s')
    && s'.dev.running == s'.dev.saved == s.dev.saved
    && s'.dev.queue <= s.dev.queue
  }

  ghost predicate Step(r: Run, s: State, s': State) {
    || StepA(r, s, s')
    || StepB(s, s')
    || StepClient(r, s, s')
    || SessionDies(s, s')
    || TimerFires(s, s')
    || PowerLoss(s, s')
  }

  ghost predicate Behaviour(r: Run, run: seq<State>) {
    && run != [] && Init(r, run[0])
    && forall i :: 0 <= i < |run| - 1 ==> Step(r, run[i], run[i + 1])
  }

  // ---- the invariant

  // The jobs queued while session A lives; its own is `r.next`.
  ghost predicate QueueOf(r: Run, a: SessionA, queue: set<nat>) {
    match a
    case AStage => queue == r.jobs
    case ACopy => queue == r.jobs
    case ASchedule => queue == r.jobs
    case AExit(_) => queue <= r.jobs + {r.next}
    case _ => queue == r.jobs + {r.next} && a.job == r.next
  }

  ghost predicate Saved(r: Run, s: State) {
    r.Candidate().Some? && s.dev.saved == r.Candidate().value
  }

  // The device runs a committed candidate that is in no saved configuration.
  ghost predicate RunningUnsaved(r: Run, s: State) {
    && r.Candidate().Some? && r.Candidate().value != Elements(r.live)
    && s.dev.running == r.Candidate().value && s.dev.saved != r.Candidate().value
  }

  // The configuration an earlier job brings back.
  ghost predicate Earlier(r: Run, c: Config) {
    r.jobs != {} && r.copy == Some(c)
  }

  // While session A lives the device has not rebooted.
  ghost predicate InvA(r: Run, s: State) {
    && QueueOf(r, s.a, s.dev.queue)
    && (s.a in {AStage, ACopy, ASchedule} ==> s.dev.nextJob == r.next)
    && (!s.a.AExit? ==>
          && s.dev.running == Elements(r.live) && s.dev.saved == r.boot && s.b == BNotOpened && !s.confirmed
          && s.dev.rollback == (if s.a in {AStage, ACopy} then r.copy else Some(r.boot)))
    && (s.a.ACommit? || s.a.ACancel? ==> s.dev.jobFile == Some(r.next))
    && (s.a == AExit(false) ==>
          && s.b == BNotOpened && !s.confirmed
          && (s.dev.saved == r.boot || Earlier(r, s.dev.saved)) && s.dev.running in {Elements(r.live), s.dev.saved}
          && (|| (s.dev.rollback == Some(r.boot) && s.dev.saved == r.boot)
              || (s.dev.rollback == r.copy && s.dev.queue <= r.jobs)))
  }

  // After the commit.
  ghost predicate InvB(r: Run, s: State) {
    s.a == AExit(true) ==>
      && r.Candidate().Some? && s.dev.rollback == Some(r.boot) && s.dev.jobFile in {None, Some(r.next)}
      && s.dev.running in {r.boot, r.Candidate().value} && s.dev.saved in {r.boot, r.Candidate().value}
      && (s.dev.saved != r.boot ==> s.b == BExit(true))
      && (RunningUnsaved(r, s) ==> r.next in s.dev.queue || s.confirmed)
      && (s.b.BConfirm? || s.b.BCheck? || s.b.BSave? ==> s.b.job == r.next && s.dev.jobFile == Some(r.next))
      && (s.b.BSave? || s.b == BExit(true) ==> s.dev.queue <= r.jobs)
      && (s.b == BExit(true) ==> s.dev.running == s.dev.saved)
  }

  ghost predicate InvClient(r: Run, s: State) {
    && (s.b != BNotOpened ==> s.a == AExit(true))
    && (s.client == InSessionB ==> s.b != BNotOpened)
    && (s.client == Succeeded ==>
          s.b == BExit(true) && (s.dev.running == Elements(r.desired) || (r.jobs != {} && s.dev.running == r.boot)))
  }

  ghost predicate Inv(r: Run, s: State) {
    && r.Valid() && InvA(r, s) && InvB(r, s) && InvClient(r, s)
    && (s.dev.queue != {} ==> s.dev.rollback.Some?)
  }

  lemma InitInv(r: Run, s: State)
    requires Init(r, s)
    ensures Inv(r, s)
  {}

  lemma StepAInv(r: Run, s: State, s': State)
    requires Inv(r, s) && StepA(r, s, s')
    ensures Inv(r, s')
  {}

  lemma StepBInv(r: Run, s: State, s': State)
    requires Inv(r, s) && StepB(s, s')
    ensures Inv(r, s')
  {}

  lemma TimerInv(r: Run, s: State, s': State)
    requires Inv(r, s) && TimerFires(s, s')
    ensures Inv(r, s')
  {}

  lemma PowerInv(r: Run, s: State, s': State)
    requires Inv(r, s) && PowerLoss(s, s')
    ensures Inv(r, s')
  {}

  lemma StepInv(r: Run, s: State, s': State)
    requires Inv(r, s) && Step(r, s, s')
    ensures Inv(r, s')
  {
    if StepA(r, s, s') {
      StepAInv(r, s, s');
    } else if StepB(s, s') {
      StepBInv(r, s, s');
    } else if TimerFires(s, s') {
      TimerInv(r, s, s');
    } else if PowerLoss(s, s') {
      PowerInv(r, s, s');
    }
  }

  lemma {:induction false} InvHolds(r: Run, run: seq<State>, k: nat)
    requires Behaviour(r, run) && k < |run|
    ensures Inv(r, run[k])
  {
    if k == 0 {
      InitInv(r, run[0]);
    } else {
      InvHolds(r, run, k - 1);
      StepInv(r, run[k - 1], run[k]);
    }
  }

  // ---- what holds over every behaviour

  // The boot configuration is always the old one or the candidate, but for an
  // earlier job that goes off before the commit and brings its own copy back. A
  // running candidate that is not saved is covered by this run's rollback job
  // until session B has confirmed.
  lemma SavedIsOldOrCandidate(r: Run, run: seq<State>, k: nat)
    requires Behaviour(r, run) && k < |run|
    ensures || run[k].dev.saved == r.boot || r.Candidate() == Some(run[k].dev.saved)
            || (Earlier(r, run[k].dev.saved) && run[k].a == AExit(false))
    ensures RunningUnsaved(r, run[k]) ==>
              run[k].a == AExit(true) &&
              (run[k].confirmed || (r.next in run[k].dev.queue && run[k].dev.rollback == Some(r.boot)))
  {
    InvHolds(r, run, k);
  }

  // So a device without queued jobs keeps to the two; with some it does iff the
  // copy they load is one of the two.
  ghost predicate SavesOnlyTwo(r: Run) {
    forall run: seq<State>, k: nat :: Behaviour(r, run) && k < |run| ==>
      run[k].dev.saved == r.boot || r.Candidate() == Some(run[k].dev.saved)
  }

  lemma SavesOnlyTwoIff(r: Run)
    requires r.Valid() && r.HasChanges()
    ensures SavesOnlyTwo(r) <==> r.jobs == {} || r.copy == Some(r.boot) || (r.copy == r.Candidate())
  {
    forall run: seq<State>, k: nat | Behaviour(r, run) && k < |run|
      ensures run[k].dev.saved == r.boot || r.Candidate() == Some(run[k].dev.saved) || Earlier(r, run[k].dev.saved)
    {
      SavedIsOldOrCandidate(r, run, k);
    }
    if r.jobs != {} && SavesOnlyTwo(r) {
      var run := EarlierJobFires(r);
      assert run[1].dev.saved == r.boot || r.Candidate() == Some(run[1].dev.saved);
    }
  }

  // An earlier job goes off before anything was staged.
  lemma EarlierJobFires(r: Run) returns (run: seq<State>)
    requires r.Valid() && r.HasChanges() && r.jobs != {}
    ensures Behaviour(r, run) && |run| == 2 && run[1].dev.saved == r.copy.value
  {
    var s := State(InSessionA, AStage, BNotOpened, Device(Elements(r.live), r.boot, r.copy, r.jobs, r.file, r.next), false);
    var j :| j in r.jobs;
    var s' := s.(a := AExit(false), dev := s.dev.(running := r.copy.value, saved := r.copy.value, queue := r.jobs - {j}));
    assert TimerFires(s, s');
    run := [s, s'];
  }

  // The candidate becomes the boot configuration only by session B's save,
  // opened after the commit, with this run's rollback job off the queue, or by
  // an earlier job whose copy is the candidate. Once saved it stays, but for an
  // earlier job.
  lemma OnlySessionBSaves(r: Run, run: seq<State>, k: nat)
    requires Behaviour(r, run) && k + 1 < |run|
    ensures !Saved(r, run[k]) && Saved(r, run[k + 1]) ==>
              || (&& run[k].b.BSave? && run[k + 1].b == BExit(true)
                  && run[k].a == AExit(true) && run[k].dev.queue <= r.jobs
                  && r.Candidate() == Some(run[k].dev.running))
              || (TimerFires(run[k], run[k + 1]) && r.jobs != {} && r.copy == r.Candidate() && run[k].a != AExit(true))
    ensures Saved(r, run[k]) && !Saved(r, run[k + 1]) ==>
              TimerFires(run[k], run[k + 1]) && r.jobs != {} &&
              (run[k + 1].dev.saved == r.boot || Earlier(r, run[k + 1].dev.saved))
  {
    InvHolds(r, run, k);
    InvHolds(r, run, k + 1);
    assert Step(r, run[k], run[k + 1]);
  }

  // Until then the timer, or a loss of power, puts the device back to where it
  // started; before the commit an earlier job may bring its own copy instead.
  lemma RollbackRestores(r: Run, run: seq<State>, k: nat)
    requires Behaviour(r, run) && k + 1 < |run| && !Saved(r, run[k])
    requires TimerFires(run[k], run[k + 1]) || PowerLoss(run[k], run[k + 1])
    ensures run[k + 1].dev.running == run[k + 1].dev.saved
    ensures run[k + 1].dev.saved == r.boot || (Earlier(r, run[k + 1].dev.saved) && run[k].a != AExit(true))
  {
    InvHolds(r, run, k);
    assert Step(r, run[k], run[k + 1]);
  }

  // An apply that reports success has the desired lines running and saved, and
  // no job left but earlier ones.
  lemma SuccessMeansSaved(r: Run, run: seq<State>, k: nat)
    requires Behaviour(r, run) && k + 1 < |run| && run[k].client != Succeeded && run[k + 1].client == Succeeded
    ensures run[k + 1].dev.running == run[k + 1].dev.saved == Elements(r.desired)
    ensures run[k + 1].dev.queue <= r.jobs
  {
    InvHolds(r, run, k);
    assert Step(r, run[k], run[k + 1]);
  }

  // Success that lasts: nothing is queued that could undo it, and nothing does.
  ghost predicate SuccessLasts(r: Run) {
    forall run: seq<State>, k: nat :: Behaviour(r, run) && k < |run| && run[k].client == Succeeded ==>
      run[k].dev.running == run[k].dev.saved == Elements(r.desired) && run[k].dev.queue == {}
  }

  // Reported success is lasting iff no earlier run left a job behind: session B
  // takes only the job of its own run off the queue.
  lemma SuccessLastsIff(r: Run)
    requires r.Valid() && r.HasChanges()
    requires Distinct(r.live) && PrefixFree(Elements(r.live)) && PrefixFree(Elements(r.desired))
    ensures SuccessLasts(r) <==> r.jobs == {}
  {
    if r.jobs == {} {
      forall run: seq<State>, k: nat | Behaviour(r, run) && k < |run| && run[k].client == Succeeded
        ensures run[k].dev.running == run[k].dev.saved == Elements(r.desired) && run[k].dev.queue == {}
      {
        SuccessStays(r, run, k);
      }
    } else {
      var run := EarlierJobUndoes(r);
      assert Behaviour(r, run) && run[11].client == Succeeded && run[11].dev.queue != {};
    }
  }

  // Without earlier jobs, in every state from success on.
  lemma SuccessStays(r: Run, run: seq<State>, k: nat)
    requires Behaviour(r, run) && k < |run| && run[k].client == Succeeded && r.jobs == {}
    ensures run[k].dev.running == run[k].dev.saved == Elements(r.desired) && run[k].dev.queue == {}
  {
    InvHolds(r, run, k);
  }

  // For lines that are the leaves of a tree, staging cannot fail and the
  // candidate is the desired configuration.
  lemma CandidateIsDesired(r: Run)
    requires Distinct(r.live) && PrefixFree(Elements(r.live)) && PrefixFree(Elements(r.desired))
    ensures r.Candidate() == Some(Elements(r.desired))
  {
    StagedScriptIsExact(r.live, r.desired);
  }

  // ---- runs in which every command succeeds

  // The i-th state of such a run.
  ghost function CleanState(r: Run, i: nat): State {
    var start := Device(Elements(r.live), r.boot, r.copy, r.jobs, r.file, r.next);
    var copied := start.(rollback := Some(r.boot));
    var scheduled := copied.(queue := r.jobs + {r.next}, nextJob := r.next + 1);
    var written := scheduled.(jobFile := Some(r.next));
    var committed := written.(running := Elements(r.desired));
    var cancelled := committed.(queue := r.jobs);
    var saved := cancelled.(saved := Elements(r.desired));
    match i
    case 0 => State(InSessionA, AStage, BNotOpened, start, false)
    case 1 => State(InSessionA, ACopy, BNotOpened, start, false)
    case 2 => State(InSessionA, ASchedule, BNotOpened, copied, false)
    case 3 => State(InSessionA, AWriteJob(r.next), BNotOpened, scheduled, false)
    case 4 => State(InSessionA, ACommit(r.next), BNotOpened, written, false)
    case 5 => State(InSessionA, AExit(true), BNotOpened, committed, false)
    case 6 => State(InSessionB, AExit(true), BRead, committed, false)
    case 7 => State(InSessionB, AExit(true), BConfirm(r.next), committed, false)
    case 8 => State(InSessionB, AExit(true), BCheck(r.next), cancelled, true)
    case 9 => State(InSessionB, AExit(true), BSave(r.next), cancelled, true)
    case 10 => State(InSessionB, AExit(true), BExit(true), saved, true)
    case _ => State(Succeeded, AExit(true), BExit(true), saved, true)
  }

  lemma JobNumbers(r: Run)
    requires r.Valid()
    ensures r.next !in r.jobs && r.jobs + {r.next} - {r.next} == r.jobs
  {}

  lemma CleanStep(r: Run, i: nat)
    requires r.Valid() && i < 11 && r.Candidate() == Some(Elements(r.desired))
    ensures Step(r, CleanState(r, i), CleanState(r, i + 1))
  {
    JobNumbers(r);
    var s, s' := CleanState(r, i), CleanState(r, i + 1);
    if i < 5 {
      assert StepA(r, s, s');
    } else if i == 5 || i == 10 {
      assert StepClient(r, s, s');
    } else {
      assert StepB(s, s');
    }
  }

  // Nothing dies, times out or loses power, and every command does its work.
  ghost predicate Smooth(r: Run, s: State, s': State) {
    && Step(r, s, s') && !TimerFires(s, s') && !PowerLoss(s, s')
    && s'.client != Failed && s'.a != AExit(false) && !s'.a.ACancel? && s'.b != BExit(false)
    && (s.b.BConfirm? && s'.b.BCheck? ==> s'.confirmed)
  }

  lemma SmoothStep(r: Run, i: nat, s': State)
    requires r.Valid() && i <= 11 && r.Candidate() == Some(Elements(r.desired)) && Smooth(r, CleanState(r, i), s')
    ensures s' == CleanState(r, i) || (i < 11 && s' == CleanState(r, i + 1))
  {
    JobNumbers(r);
  }

  // Every run of smooth steps goes through these states and no others: it ends
  // either with a command still to come or in reported success, the desired
  // lines confirmed and saved.
  lemma {:induction false} CleanApply(r: Run, run: seq<State>, k: nat) returns (i: nat)
    requires Distinct(r.live) && PrefixFree(Elements(r.live)) && PrefixFree(Elements(r.desired))
    requires Behaviour(r, run) && k < |run| && forall n :: 0 <= n < k ==> Smooth(r, run[n], run[n + 1])
    ensures i <= 11 && run[k] == CleanState(r, i)
    ensures i < 11 ==> Smooth(r, run[k], CleanState(r, i + 1))
    ensures i == 11 ==> run[k].client == Succeeded && run[k].dev.running == run[k].dev.saved == Elements(r.desired)
                        && run[k].dev.queue == r.jobs
  {
    CandidateIsDesired(r);
    if k == 0 {
      i := 0;
    } else {
      i := CleanApply(r, run, k - 1);
      SmoothStep(r, i, run[k]);
      if run[k] != CleanState(r, i) {
        i := i + 1;
      }
    }
    if i < 11 {
      CleanStep(r, i);
      JobNumbers(r);
    }
  }

  // With an earlier job queued, every command succeeding and success reported,
  // that job still takes the device back to where it was.
  lemma EarlierJobUndoes(r: Run) returns (run: seq<State>)
    requires r.Valid() && r.HasChanges() && r.jobs != {}
    requires Distinct(r.live) && PrefixFree(Elements(r.live)) && PrefixFree(Elements(r.desired))
    ensures Behaviour(r, run) && |run| == 13
    ensures run[11].client == Succeeded && run[11].dev.queue == r.jobs
    ensures TimerFires(run[11], run[12]) && run[12].dev.running == run[12].dev.saved == r.boot
  {
    CandidateIsDesired(r);
    var end := CleanState(r, 11);
    var j :| j in r.jobs;
    var undone := end.(dev := end.dev.(running := r.boot, saved := r.boot, queue := r.jobs - {j}));
    assert TimerFires(end, undone);
    run := seq(12, i requires 0 <= i => CleanState(r, i)) + [undone];
    forall i | 0 <= i < |run| - 1
      ensures Step(r, run[i], run[i + 1])
    {
      if i < 11 {
        CleanStep(r, i);
      }
    }
  }

  // A commit that fails changes nothing and, once its cancel worked, leaves no job
  // of its own: the device is as it was found. There is such a run, and whatever
  // the cancel does, it takes at most this run's job off the queue.
  lemma FailedCommitIsCancelled(r: Run) returns (run: seq<State>)
    requires r.Valid() && r.HasChanges() && r.Candidate().Some?
    ensures Behaviour(r, run)
    ensures var end := run[|run| - 1];
            && end.client == Failed && end.a == AExit(false) && end.dev.queue == r.jobs
            && end.dev.running == Elements(r.live) && end.dev.saved == r.boot
  {
    JobNumbers(r);
    var s0, s1, s2, s3, s4 := CleanState(r, 0), CleanState(r, 1), CleanState(r, 2), CleanState(r, 3), CleanState(r, 4);
    var s5 := s4.(a := ACancel(r.next));
    var s6 := s5.(a := AExit(false), dev := s5.dev.(queue := r.jobs));
    var s7 := s6.(client := Failed);
    assert StepA(r, s0, s1) && StepA(r, s1, s2) && StepA(r, s2, s3) && StepA(r, s3, s4);
    assert StepA(r, s4, s5) && StepA(r, s5, s6) && StepClient(r, s6, s7);
    run := [s0, s1, s2, s3, s4, s5, s6, s7];
  }

  lemma CancelTakesOwnJob(r: Run, run: seq<State>, k: nat)
    requires Behaviour(r, run) && k + 1 < |run| && run[k].a.ACancel? && StepA(r, run[k], run[k + 1])
    ensures run[k].dev.queue == r.jobs + {r.next} && run[k + 1].dev.queue in {run[k].dev.queue, r.jobs}
    ensures run[k + 1].a == AExit(false) && run[k + 1].dev.(queue := {}) == run[k].dev.(queue := {})
    ensures run[k + 1].dev.running == Elements(r.live) && run[k + 1].dev.saved == r.boot
  {
    InvHolds(r, run, k);
    JobNumbers(r);
  }

  // A session that loses its connection after scheduling leaves such a job: the
  // next apply starts from a device with one queued.
  lemma DroppedSessionLeavesJob(r: Run) returns (run: seq<State>)
    requires r.Valid() && r.HasChanges() && r.Candidate().Some?
    ensures Behaviour(r, run)
    ensures var end := run[|run| - 1];
            && end.a == AExit(false) && end.client == Failed && end.dev.running == Elements(r.live)
            && r.next in end.dev.queue && end.dev.rollback == Some(r.boot)
  {
    var s0, s1, s2, s3 := CleanState(r, 0), CleanState(r, 1), CleanState(r, 2), CleanState(r, 3);
    var s4 := s3.(a := AExit(false));
    var s5 := s4.(client := Failed);
    assert StepA(r, s0, s1) && StepA(r, s1, s2) && StepA(r, s2, s3);
    assert SessionDies(s3, s4) && StepClient(r, s4, s5);
    run := [s0, s1, s2, s3, s4, s5];
  }
}
