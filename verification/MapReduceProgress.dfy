/** How a job advances: which tasks are outstanding, how much work is left, and the one window in
    which a report is lost for good. */
module MapReduceProgress {

  import opened MapReduceText
  import opened MapReduceMaster
  import Runs = MapReduceMasterRuns
  import opened MapReduceWorker
  import opened MapReduceJob

  // ---- Work left ----

  /** Two for every idle task, one for every task in progress. */
  function Left(tasks: seq<Task>): nat {
    if tasks == [] then 0 else 2 - tasks[0].status.Rank() + Left(tasks[1..])
  }

  function WorkLeft(m: Master): nat {
    Left(m.mapTasks) + Left(m.reduceTasks)
  }

  lemma {:induction false} LeftAfterSet(tasks: seq<Task>, k: nat, status: TaskStatus)
    requires k < |tasks|
    ensures Left(SetStatus(tasks, k, status)) + status.Rank() == Left(tasks) + tasks[k].status.Rank()
  {
    var updated := SetStatus(tasks, k, status);
    if k == 0 {
      assert updated[1..] == tasks[1..];
    } else {
      assert updated[1..] == SetStatus(tasks[1..], k - 1, status);
      LeftAfterSet(tasks[1..], k - 1, status);
    }
  }

  lemma {:induction false} NothingLeftIff(tasks: seq<Task>)
    ensures Left(tasks) == 0 <==> AllCompleted(tasks)
  {
    if tasks != [] {
      NothingLeftIff(tasks[1..]);
      if AllCompleted(tasks[1..]) && tasks[0].status.Completed? {
        forall k | 0 <= k < |tasks| ensures tasks[k].status.Completed? {
          assert k > 0 ==> tasks[k] == tasks[1..][k - 1];
        }
      }
    }
  }

  lemma {:induction false} AllIdleLeft(tasks: seq<Task>)
    requires Runs.NoneStarted(tasks)
    ensures Left(tasks) == 2 * |tasks|
  {
    if tasks != [] {
      AllIdleLeft(tasks[1..]);
    }
  }

  // ---- Faithful runs ----

  /** No worker dies and every finished body is reported, in time or not. */
  predicate Faithful(step: Step) {
    !step.Crash? && !step.LoseReport?
  }

  predicate IsFaithfulRun(c: Valid, s: System, steps: seq<Step>) {
    IsRun(c, s, steps) && forall k :: 0 <= k < |steps| ==> Faithful(steps[k])
  }

  /** A reduce report reaches the master while a registration has put the job back in its map phase. */
  predicate LandsOutside(s: System, step: Step) {
    step.SendReport? && step.p in s.procs && OnReduce(s.procs[step.p].at) && !s.master.phase.Reducing?
  }

  predicate MapHeld(procs: map<nat, Proc>, i: nat) {
    exists p :: p in procs && HoldsMap(procs[p].at, i)
  }

  predicate ReduceHeld(procs: map<nat, Proc>, r: nat) {
    exists p :: p in procs && HoldsReduce(procs[p].at, r)
  }

  /** The map tasks in progress are exactly the outstanding map assignments. */
  predicate MapsCovered(m: Master, procs: map<nat, Proc>) {
    forall i :: 0 <= i < |m.mapTasks| ==> (m.mapTasks[i].status.InProgress? <==> MapHeld(procs, i))
  }

  predicate ReducesCovered(m: Master, procs: map<nat, Proc>) {
    forall r :: 0 <= r < |m.reduceTasks| ==> (m.reduceTasks[r].status.InProgress? <==> ReduceHeld(procs, r))
  }

  /** Process `p` changes what it does, everyone else stays: who holds what. */
  lemma HeldAfterMove(procs: map<nat, Proc>, p: nat, proc: Proc, i: nat)
    ensures MapHeld(procs[p := proc], i) <==>
            HoldsMap(proc.at, i) || exists q :: q in procs && q != p && HoldsMap(procs[q].at, i)
    ensures ReduceHeld(procs[p := proc], i) <==>
            HoldsReduce(proc.at, i) || exists q :: q in procs && q != p && HoldsReduce(procs[q].at, i)
  {
    var next := procs[p := proc];
    if HoldsMap(proc.at, i) { assert next[p].at == proc.at; }
    if HoldsReduce(proc.at, i) { assert next[p].at == proc.at; }
    if q :| q in procs && q != p && HoldsMap(procs[q].at, i) { assert next[q] == procs[q]; }
    if q :| q in procs && q != p && HoldsReduce(procs[q].at, i) { assert next[q] == procs[q]; }
  }

  predicate SameHolding(a: Activity, b: Activity) {
    && (OnMap(a) <==> OnMap(b)) && (OnMap(a) ==> a.i == b.i)
    && (OnReduce(a) <==> OnReduce(b)) && (OnReduce(a) ==> a.r == b.r)
  }

  function ActivityOf(procs: map<nat, Proc>, p: nat): Activity {
    if p in procs then procs[p].at else Ready
  }

  /** The master's tasks stay as they are, and only `p` moves, holding what it held. */
  predicate OnlyInner(s: System, s': System, p: nat) {
    && s'.master.mapTasks == s.master.mapTasks && s'.master.reduceTasks == s.master.reduceTasks
    && p in s'.procs && s'.procs == s.procs[p := s'.procs[p]]
    && SameHolding(ActivityOf(s.procs, p), s'.procs[p].at)
  }

  predicate Inner(step: Step) {
    Faithful(step) && !step.Ask? && !step.SendReport? && !step.DelayReport?
  }

  /** Steps other than requests and reports hand out and complete nothing, and `p` keeps holding
      what it held. */
  lemma InnerStep(c: Valid, s: System, step: Step)
    requires Enabled(c, s, step) && Inner(step)
    ensures OnlyInner(s, Apply(c, s, step), step.p)
  {
  }

  lemma InnerStepCovered(m: Master, procs: map<nat, Proc>, p: nat, proc: Proc)
    requires SameHolding(ActivityOf(procs, p), proc.at)
    ensures MapsCovered(m, procs) ==> MapsCovered(m, procs[p := proc])
    ensures ReducesCovered(m, procs) ==> ReducesCovered(m, procs[p := proc])
  {
    forall i: nat ensures MapHeld(procs[p := proc], i) <==> MapHeld(procs, i)
             ensures ReduceHeld(procs[p := proc], i) <==> ReduceHeld(procs, i)
    {
      HeldAfterMove(procs, p, proc, i);
      assert p in procs ==> procs[p].at == ActivityOf(procs, p);
    }
  }

  lemma AskCovered(c: Valid, s: System, p: nat)
    requires JobInv(c, s) && Enabled(c, s, Ask(p))
    ensures var s' := Apply(c, s, Ask(p));
            && (MapsCovered(s.master, s.procs) ==> MapsCovered(s'.master, s'.procs))
            && (ReducesCovered(s.master, s.procs) ==> ReducesCovered(s'.master, s'.procs))
  {
    var s' := Apply(c, s, Ask(p));
    RequestChanges(s.master);
    var a := Request(s.master).1;
    forall k: nat | k < |s.master.mapTasks|
      ensures MapHeld(s'.procs, k) <==> MapHeld(s.procs, k) || (a.MapAssignment? && a.taskId == k)
    {
      HeldAfterMove(s.procs, p, s'.procs[p], k);
    }
    forall k: nat | k < |s.master.reduceTasks|
      ensures ReduceHeld(s'.procs, k) <==> ReduceHeld(s.procs, k) || (a.ReduceAssignment? && a.taskId == k)
    {
      HeldAfterMove(s.procs, p, s'.procs[p], k);
    }
  }

  lemma ReportCovered(c: Valid, s: System, p: nat)
    requires JobInv(c, s) && Enabled(c, s, SendReport(p))
    ensures var s' := Apply(c, s, SendReport(p));
            && (MapsCovered(s.master, s.procs) ==> MapsCovered(s'.master, s'.procs))
            && (ReducesCovered(s.master, s.procs) && (s.procs[p].at.ReduceWritten? ==> s.master.phase.Reducing?)
                ==> ReducesCovered(s'.master, s'.procs))
  {
    hide ProcOk, FilesOk;
    var s' := Apply(c, s, SendReport(p));
    var at := s.procs[p].at;
    ReportChanges(c, s, p);
    HeldIsInProgress(c, s, p);
    hide Report;
    assert at.MapWritten? ==> HoldsMap(at, at.i);
    assert at.ReduceWritten? ==> HoldsReduce(at, at.r);
    forall k: nat
      ensures MapHeld(s'.procs, k) <==> MapHeld(s.procs, k) && !HoldsMap(at, k)
      ensures ReduceHeld(s'.procs, k) <==> ReduceHeld(s.procs, k) && !HoldsReduce(at, k)
    {
      HeldAfterMove(s.procs, p, s'.procs[p], k);
      forall q | q in s.procs && q != p ensures !SameTask(at, s.procs[q].at) {
      }
    }
  }

  lemma InnerStepBothCovered(c: Valid, s: System, step: Step)
    requires Enabled(c, s, step) && Inner(step)
    ensures var s' := Apply(c, s, step);
            && (MapsCovered(s.master, s.procs) ==> MapsCovered(s'.master, s'.procs))
            && (ReducesCovered(s.master, s.procs) ==> ReducesCovered(s'.master, s'.procs))
  {
    hide Apply, Enabled;
    var s' := Apply(c, s, step);
    InnerStep(c, s, step);
    InnerStepCovered(s.master, s.procs, step.p, s'.procs[step.p]);
    assert MapsCovered(s'.master, s'.procs) == MapsCovered(s.master, s'.procs);
  }

  /** A late report holds what its worker held. */
  lemma DelayHeld(procs: map<nat, Proc>, p: nat, q: nat, i: nat)
    requires p in procs && q !in procs
    ensures var next := procs[p := procs[p].(at := Ready)][q := procs[p].(detached := true)];
            (MapHeld(next, i) <==> MapHeld(procs, i)) && (ReduceHeld(next, i) <==> ReduceHeld(procs, i))
  {
    var next := procs[p := procs[p].(at := Ready)][q := procs[p].(detached := true)];
    if r :| r in procs && HoldsMap(procs[r].at, i) { assert HoldsMap(next[if r == p then q else r].at, i); }
    if r :| r in procs && HoldsReduce(procs[r].at, i) { assert HoldsReduce(next[if r == p then q else r].at, i); }
    if r :| r in next && HoldsMap(next[r].at, i) { assert HoldsMap(procs[if r == q then p else r].at, i); }
    if r :| r in next && HoldsReduce(next[r].at, i) { assert HoldsReduce(procs[if r == q then p else r].at, i); }
  }

  lemma DelayCovered(c: Valid, s: System, p: nat, q: nat)
    requires Enabled(c, s, DelayReport(p, q))
    ensures var s' := Apply(c, s, DelayReport(p, q));
            && (MapsCovered(s.master, s.procs) ==> MapsCovered(s'.master, s'.procs))
            && (ReducesCovered(s.master, s.procs) ==> ReducesCovered(s'.master, s'.procs))
  {
    hide MapHeld, ReduceHeld;
    var s' := Apply(c, s, DelayReport(p, q));
    forall i: nat ensures MapHeld(s'.procs, i) <==> MapHeld(s.procs, i)
             ensures ReduceHeld(s'.procs, i) <==> ReduceHeld(s.procs, i)
    {
      DelayHeld(s.procs, p, q, i);
    }
  }

  /** Bookkeeping step: under any registrations the map side stays covered, and the reduce side unless a
      reduce report lands outside the reduce phase. */
  lemma StepCovered(c: Valid, s: System, step: Step)
    requires JobInv(c, s) && Enabled(c, s, step) && Faithful(step)
    ensures var s' := Apply(c, s, step);
            && (MapsCovered(s.master, s.procs) ==> MapsCovered(s'.master, s'.procs))
            && (ReducesCovered(s.master, s.procs) && !LandsOutside(s, step) ==> ReducesCovered(s'.master, s'.procs))
  {
    hide MapsCovered, ReducesCovered, Apply;
    if step.Ask? {
      AskCovered(c, s, step.p);
    } else if step.SendReport? {
      ReportCovered(c, s, step.p);
    } else if step.DelayReport? {
      DelayCovered(c, s, step.p, step.q);
    } else {
      InnerStepBothCovered(c, s, step);
    }
  }

  lemma {:induction false} FaithfulRunKeeps(c: Valid, s: System, steps: seq<Step>)
    requires JobInv(c, s) && MapsCovered(s.master, s.procs) && IsFaithfulRun(c, s, steps)
    ensures var s' := After(c, s, steps); JobInv(c, s') && MapsCovered(s'.master, s'.procs)
    decreases steps
  {
    if steps != [] {
      StepKeeps(c, s, steps[0]);
      StepCovered(c, s, steps[0]);
      FaithfulRunKeeps(c, Apply(c, s, steps[0]), steps[1..]);
    }
  }

  /** Assignment bookkeeping, over any run with faithful workers and any registrations: the map
      tasks in progress are exactly the outstanding map assignments, every outstanding reduce
      assignment is in progress, and no task is held by two processes. */
  lemma Bookkeeping(c: Valid, steps: seq<Step>)
    requires IsFaithfulRun(c, Start(c), steps)
    ensures var s := After(c, Start(c), steps);
            && (forall i :: 0 <= i < |c.files| ==>
                  i < |s.master.mapTasks| && (s.master.mapTasks[i].status.InProgress? <==> MapHeld(s.procs, i)))
            && (forall p :: p in s.procs && OnReduce(s.procs[p].at) ==>
                  && s.procs[p].at.r < |s.master.reduceTasks|
                  && s.master.reduceTasks[s.procs[p].at.r].status.InProgress?)
            && Exclusive(s.procs)
  {
    StartInv(c);
    FaithfulRunKeeps(c, Start(c), steps);
    var s := After(c, Start(c), steps);
    forall p | p in s.procs && OnReduce(s.procs[p].at)
      ensures var r := s.procs[p].at.r; r < |s.master.reduceTasks| && s.master.reduceTasks[r].status.InProgress?
    {
      HeldIsInProgress(c, s, p);
      assert HoldsReduce(s.procs[p].at, s.procs[p].at.r);
    }
  }

  // ---- Progress ----

  /** A step that hands out a task or reports one. */
  predicate TaskStep(s: System, step: Step) {
    step.SendReport? ||
    (step.Ask? && (Request(s.master).1.MapAssignment? || Request(s.master).1.ReduceAssignment?))
  }

  function TaskSteps(c: Valid, s: System, steps: seq<Step>): nat
    requires IsRun(c, s, steps)
    decreases steps
  {
    if steps == [] then 0
    else (if TaskStep(s, steps[0]) then 1 else 0) + TaskSteps(c, Apply(c, s, steps[0]), steps[1..])
  }

  /** How many reduce reports reached the master outside the reduce phase. */
  function ReportsOutside(c: Valid, s: System, steps: seq<Step>): nat
    requires IsRun(c, s, steps)
    decreases steps
  {
    if steps == [] then 0
    else (if LandsOutside(s, steps[0]) then 1 else 0) + ReportsOutside(c, Apply(c, s, steps[0]), steps[1..])
  }

  lemma AskWork(c: Valid, s: System, p: nat)
    requires JobInv(c, s) && Enabled(c, s, Ask(p))
    ensures WorkLeft(Apply(c, s, Ask(p)).master) + (if TaskStep(s, Ask(p)) then 1 else 0) == WorkLeft(s.master)
  {
    var m := s.master;
    RequestChanges(m);
    hide Request;
    match Request(m).1 {
      case MapAssignment(id, _) => LeftAfterSet(m.mapTasks, id, InProgress);
      case ReduceAssignment(id, _) => LeftAfterSet(m.reduceTasks, id, InProgress);
      case _ =>
    }
  }

  lemma ReportWork(c: Valid, s: System, p: nat)
    requires JobInv(c, s) && Enabled(c, s, SendReport(p))
    ensures WorkLeft(Apply(c, s, SendReport(p)).master) + 1
         == WorkLeft(s.master) + if LandsOutside(s, SendReport(p)) then 1 else 0
  {
    var m, at := s.master, s.procs[p].at;
    ReportChanges(c, s, p);
    HeldIsInProgress(c, s, p);
    hide Report;
    if at.MapWritten? {
      assert HoldsMap(at, at.i);
      LeftAfterSet(m.mapTasks, at.i, Completed);
    } else {
      assert HoldsReduce(at, at.r);
      LeftAfterSet(m.reduceTasks, at.r, Completed);
    }
  }

  /** Every assignment takes one off the work left, and so does every report that does not land outside
      its phase; no other step changes it, a death or a lost report included. */
  lemma StepWork(c: Valid, s: System, step: Step)
    requires JobInv(c, s) && Enabled(c, s, step)
    ensures WorkLeft(Apply(c, s, step).master) + (if TaskStep(s, step) then 1 else 0)
         == WorkLeft(s.master) + if LandsOutside(s, step) then 1 else 0
  {
    if step.Ask? {
      AskWork(c, s, step.p);
    } else if step.SendReport? {
      ReportWork(c, s, step.p);
    } else {
      QuietMaster(c, s, step);
    }
  }

  lemma QuietMaster(c: Valid, s: System, step: Step)
    requires Enabled(c, s, step) && !step.Ask? && !step.SendReport?
    ensures var m' := Apply(c, s, step).master;
            m'.mapTasks == s.master.mapTasks && m'.reduceTasks == s.master.reduceTasks
  {
  }

  lemma {:induction false} RunWork(c: Valid, s: System, steps: seq<Step>)
    requires JobInv(c, s) && IsRun(c, s, steps)
    ensures TaskSteps(c, s, steps) + WorkLeft(After(c, s, steps).master)
         == WorkLeft(s.master) + ReportsOutside(c, s, steps)
    decreases steps
  {
    hide JobInv, WorkLeft, Apply, Enabled, TaskStep, LandsOutside;
    if steps != [] {
      StepKeeps(c, s, steps[0]);
      StepWork(c, s, steps[0]);
      RunWork(c, Apply(c, s, steps[0]), steps[1..]);
    }
  }

  lemma {:induction false} RunCovered(c: Valid, s: System, steps: seq<Step>)
    requires JobInv(c, s) && IsFaithfulRun(c, s, steps) && ReportsOutside(c, s, steps) == 0
    requires MapsCovered(s.master, s.procs) && ReducesCovered(s.master, s.procs)
    ensures var s' := After(c, s, steps);
            JobInv(c, s') && MapsCovered(s'.master, s'.procs) && ReducesCovered(s'.master, s'.procs)
    decreases steps
  {
    hide JobInv, Apply, Enabled, MapsCovered, ReducesCovered, LandsOutside, Faithful;
    if steps != [] {
      StepKeeps(c, s, steps[0]);
      StepCovered(c, s, steps[0]);
      RunCovered(c, Apply(c, s, steps[0]), steps[1..]);
    }
  }

  predicate Holds(s: System, p: nat) {
    p in s.procs && (OnMap(s.procs[p].at) || OnReduce(s.procs[p].at))
  }

  /** While work is left and registration is over, a request hands out a task, or a worker (or a report
      on its way) holds one and can finish it by steps of its own; EXIT is answered exactly when no
      work is left. */
  lemma NeverStuck(c: Valid, s: System)
    requires JobInv(c, s) && MapsCovered(s.master, s.procs) && ReducesCovered(s.master, s.procs)
    requires !s.master.phase.Registering?
    ensures Request(s.master).1.Exit? <==> WorkLeft(s.master) == 0
    ensures WorkLeft(s.master) > 0 ==>
            || Request(s.master).1.MapAssignment? || Request(s.master).1.ReduceAssignment?
            || exists p :: Holds(s, p) && CanFinish(c, s, p)
  {
    var m := s.master;
    Runs.ExitIff(m);
    NothingLeftIff(m.mapTasks);
    NothingLeftIff(m.reduceTasks);
    if Request(m).1.Wait? {
      var p := SomeHolder(s);
      HolderFinishes(c, s, p);
    }
  }

  lemma SomeHolder(s: System) returns (p: nat)
    requires Runs.Inv(s.master) && MapsCovered(s.master, s.procs) && ReducesCovered(s.master, s.procs)
    requires !s.master.phase.Registering? && Request(s.master).1.Wait?
    ensures Holds(s, p)
  {
    var m := s.master;
    if k :| 0 <= k < |m.mapTasks| && m.mapTasks[k].status.InProgress? {
      assert MapHeld(s.procs, k);
      p :| p in s.procs && HoldsMap(s.procs[p].at, k);
    } else {
      var k :| 0 <= k < |m.reduceTasks| && m.reduceTasks[k].status.InProgress?;
      assert ReduceHeld(s.procs, k);
      p :| p in s.procs && HoldsReduce(s.procs[p].at, k);
    }
  }

  /** Progress: in every run the assignments and reports add up to 2 * (numMap + numReduce), less the work
      still left, plus one for each reduce report that landed outside the reduce phase; so the plain
      equation holds if and only if none did. After one EXIT is never answered; a faithful run without
      one is never stuck, and EXIT is answered exactly after 2 * (numMap + numReduce) such steps. */
  lemma Progress(c: Valid, steps: seq<Step>)
    requires IsRun(c, Start(c), steps)
    ensures var s := After(c, Start(c), steps);
            var all := 2 * (|c.files| + c.numReduce);
            && TaskSteps(c, Start(c), steps) + WorkLeft(s.master) == all + ReportsOutside(c, Start(c), steps)
            && (TaskSteps(c, Start(c), steps) + WorkLeft(s.master) == all <==> ReportsOutside(c, Start(c), steps) == 0)
            && (ReportsOutside(c, Start(c), steps) > 0 ==> !Request(s.master).1.Exit?)
            && (IsFaithfulRun(c, Start(c), steps) && ReportsOutside(c, Start(c), steps) == 0 && !s.master.phase.Registering? ==>
                  && (Request(s.master).1.Exit? <==> TaskSteps(c, Start(c), steps) == all)
                  && (WorkLeft(s.master) > 0 ==>
                        || Request(s.master).1.MapAssignment? || Request(s.master).1.ReduceAssignment?
                        || exists p :: Holds(s, p) && CanFinish(c, s, p)))
  {
    hide Apply, Enabled, JobInv;
    var s0 := Start(c);
    StartInv(c);
    AllIdleLeft(s0.master.mapTasks);
    AllIdleLeft(s0.master.reduceTasks);
    RunWork(c, s0, steps);
    var s := After(c, s0, steps);
    if ReportsOutside(c, s0, steps) > 0 {
      OutsideNeverExits(c, s0, steps);
    }
    if IsFaithfulRun(c, s0, steps) && ReportsOutside(c, s0, steps) == 0 && !s.master.phase.Registering? {
      RunCovered(c, s0, steps);
      NeverStuck(c, s);
    }
  }

  // ---- A holder can finish ----

  /** The steps process `p` still needs to get its task reported. */
  function Remaining(c: Valid, proc: Proc): int {
    match proc.at
    case MapAssigned(_, file) => if file in c.disk then |FileWords(c, file)| + 3 else 0
    case MapWriting(_, file, k) => if file in c.disk then |FileWords(c, file)| - k + 2 else 0
    case MapWritten(_) => 1
    case ReduceReading(_, j, _) => proc.nMap - j + 2
    case ReduceWritten(_) => 1
    case _ => 0
  }

  /** A step of a body, or the report. */
  predicate Works(step: Step) {
    Faithful(step) && !step.Spawn? && !step.Ask? && !step.DelayReport?
  }

  /** Process `p` has a run of its own that ends with its report. */
  ghost predicate CanFinish(c: Valid, s: System, p: nat) {
    exists steps :: FinishingRun(c, s, p, steps)
  }

  predicate FinishingRun(c: Valid, s: System, p: nat, steps: seq<Step>) {
    && p in s.procs && IsRun(c, s, steps) && |steps| == Remaining(c, s.procs[p])
    && (forall k :: 0 <= k < |steps| ==> Works(steps[k]) && steps[k].p == p)
    && |steps| > 0 && steps[|steps| - 1] == SendReport(p)
  }

  lemma MapWorks(c: Valid, s: System, p: nat) returns (step: Step)
    requires JobInv(c, s) && p in s.procs && OnMap(s.procs[p].at)
    ensures Enabled(c, s, step) && Works(step) && step.p == p
    ensures s.procs[p].at.MapWritten? ==> step == SendReport(p)
  {
    assert ProcOk(c, s.master, s.inter, s.outs, s.procs[p]);
    match s.procs[p].at
    case MapAssigned(_, _) => step := TruncateBuckets(p);
    case MapWriting(_, file, k) => step := if k < |FileWords(c, file)| then WriteNextWord(p) else FinishMap(p);
    case MapWritten(_) => step := SendReport(p);
  }

  lemma ReduceWorks(c: Valid, s: System, p: nat) returns (step: Step)
    requires JobInv(c, s) && p in s.procs && OnReduce(s.procs[p].at)
    ensures Enabled(c, s, step) && Works(step) && step.p == p
    ensures s.procs[p].at.ReduceWritten? ==> step == SendReport(p)
  {
    assert ProcOk(c, s.master, s.inter, s.outs, s.procs[p]);
    match s.procs[p].at
    case ReduceReading(_, j, acc) =>
      if j < s.procs[p].nMap {
        step := ReadBucket(p);
      } else {
        var lines := ListingExists(acc);
        step := WriteOutput(p, lines);
      }
    case ReduceWritten(_) => step := SendReport(p);
  }

  lemma ElementsExist(s: set<string>) returns (files: seq<string>)
    ensures Distinct(files) && Elements(files) == s
  {
    if s == {} {
      files := [];
    } else {
      var f :| f in s;
      var rest := ElementsExist(s - {f});
      files := rest + [f];
      assert Elements(files) == Elements(rest) + {f};
      assert forall i :: 0 <= i < |rest| ==> rest[i] in Elements(rest);
    }
  }

  lemma LineExists(acc: Accumulator, word: string) returns (line: OutLine)
    requires word in Words(acc)
    ensures line.word == word && LineOf(acc, line)
  {
    match acc
    case Counts(counts) => line := CountLine(word, counts[word]);
    case Index(index) =>
      var files := ElementsExist(index[word]);
      line := IndexLine(word, files);
  }

  lemma PartialListingExists(acc: Accumulator, left: set<string>) returns (lines: seq<OutLine>)
    requires left <= Words(acc)
    ensures PartialListing(acc, lines, left)
    decreases Words(acc) - left
  {
    if w :| w in Words(acc) && w !in left {
      var rest := PartialListingExists(acc, left + {w});
      var line := LineExists(acc, w);
      PartialListingStep(acc, rest, left + {w}, line);
      assert left + {w} - {w} == left;
      lines := rest + [line];
    } else {
      lines := [];
    }
  }

  /** A reducer can always write its output, whatever the order of its map. */
  lemma ListingExists(acc: Accumulator) returns (lines: seq<OutLine>)
    ensures IsListing(acc, lines)
  {
    lines := PartialListingExists(acc, {});
  }

  /** Every step of the holder's own takes one off what remains, and what remains is never negative. */
  lemma WorkShrinks(c: Valid, s: System, step: Step)
    requires JobInv(c, s) && Enabled(c, s, step) && Works(step)
    ensures var s' := Apply(c, s, step);
            && step.p in s.procs && step.p in s'.procs
            && Remaining(c, s'.procs[step.p]) == Remaining(c, s.procs[step.p]) - 1 >= 0
            && (step.SendReport? <==> Remaining(c, s.procs[step.p]) == 1)
            && (!step.SendReport? ==> Holds(s', step.p))
  {
    hide AppendLine, IsListing, ParseFile, Absorb, Report, EmptyBuckets, Bucket, FilesOk, Exclusive;
    assert ProcOk(c, s.master, s.inter, s.outs, s.procs[step.p]);
    hide ProcOk;
  }

  /** And nobody else's step touches it. */
  lemma OthersLeaveHolder(c: Valid, s: System, step: Step, p: nat)
    requires Enabled(c, s, step) && p in s.procs && step.p != p
    ensures p in Apply(c, s, step).procs && Apply(c, s, step).procs[p] == s.procs[p]
  {
  }

  lemma {:induction false} HolderFinishes(c: Valid, s: System, p: nat)
    requires JobInv(c, s) && Holds(s, p)
    ensures CanFinish(c, s, p)
    decreases Remaining(c, s.procs[p])
  {
    hide JobInv, Apply, Enabled, Remaining, CanFinish, Works;
    var step: Step;
    if OnMap(s.procs[p].at) {
      step := MapWorks(c, s, p);
    } else {
      step := ReduceWorks(c, s, p);
    }
    WorkShrinks(c, s, step);
    var s1 := Apply(c, s, step);
    if step.SendReport? {
      OneStepFinishes(c, s, p, step);
    } else {
      StepKeeps(c, s, step);
      HolderFinishes(c, s1, p);
      OneMoreFinishes(c, s, p, step);
    }
  }

  lemma OneStepFinishes(c: Valid, s: System, p: nat, step: Step)
    requires p in s.procs && Enabled(c, s, step) && Works(step) && step.p == p && step.SendReport?
    requires Remaining(c, s.procs[p]) == 1
    ensures CanFinish(c, s, p)
  {
    hide Apply, Enabled, Remaining, Works;
    assert [step][0] == step && [step][1..] == [];
    assert IsRun(c, Apply(c, s, step), []);
    assert FinishingRun(c, s, p, [step]);
  }

  lemma OneMoreFinishes(c: Valid, s: System, p: nat, step: Step)
    requires p in s.procs && Enabled(c, s, step) && Works(step) && step.p == p && CanFinish(c, Apply(c, s, step), p)
    requires p in Apply(c, s, step).procs && Remaining(c, Apply(c, s, step).procs[p]) == Remaining(c, s.procs[p]) - 1
    ensures CanFinish(c, s, p)
  {
    hide Apply, Enabled, Remaining, Works;
    var rest :| FinishingRun(c, Apply(c, s, step), p, rest);
    var steps := [step] + rest;
    assert steps[0] == step && steps[1..] == rest;
    assert FinishingRun(c, s, p, steps);
  }

  // ---- The window in which a report is lost ----

  /** A reduce report is taken exactly when it arrives in the reduce phase. */
  lemma ReduceReportCountsIff(c: Valid, s: System, p: nat)
    requires JobInv(c, s) && p in s.procs && s.procs[p].at.ReduceWritten?
    ensures var r := s.procs[p].at.r;
            && r < s.master.numReduce
            && (Apply(c, s, SendReport(p)).master.reduceTasks[r].status.Completed? <==> s.master.phase.Reducing?)
  {
  }

  /** In progress, and nobody is working on it. */
  predicate Orphan(s: System, r: nat) {
    r < |s.master.reduceTasks| && s.master.reduceTasks[r].status.InProgress? && !ReduceHeld(s.procs, r)
  }

  /** It can only be completed by its own report, which nobody has left to send. */
  lemma OrphanStatus(c: Valid, s: System, step: Step, r: nat)
    requires JobInv(c, s) && Enabled(c, s, step) && Orphan(s, r)
    ensures var m' := Apply(c, s, step).master; r < |m'.reduceTasks| && m'.reduceTasks[r].status.InProgress?
  {
    hide ProcOk, FilesOk;
    if step.Ask? {
      RequestChanges(s.master);
    } else if step.SendReport? {
      assert !HoldsReduce(s.procs[step.p].at, r);
      ReportChanges(c, s, step.p);
    } else {
      hide Apply, Enabled;
      QuietMaster(c, s, step);
    }
  }

  lemma OrphanNotHeld(c: Valid, s: System, step: Step, r: nat)
    requires JobInv(c, s) && Enabled(c, s, step) && Orphan(s, r)
    ensures !ReduceHeld(Apply(c, s, step).procs, r)
  {
    hide ProcOk, FilesOk;
    var p := step.p;
    var s' := Apply(c, s, step);
    if step.DelayReport? {
      DelayHeld(s.procs, p, step.q, r);
    } else {
      HeldAfterMove(s.procs, p, s'.procs[p], r);
      assert p in s.procs ==> !HoldsReduce(s.procs[p].at, r);
      if step.Ask? {
        RequestChanges(s.master);
        hide Request;
      }
    }
  }

  lemma OrphanStays(c: Valid, s: System, step: Step, r: nat)
    requires JobInv(c, s) && Enabled(c, s, step) && Orphan(s, r)
    ensures Orphan(Apply(c, s, step), r)
  {
    hide Apply, Enabled, JobInv;
    OrphanStatus(c, s, step, r);
    OrphanNotHeld(c, s, step, r);
  }

  lemma {:induction false} OrphanForever(c: Valid, s: System, steps: seq<Step>, r: nat)
    requires JobInv(c, s) && IsRun(c, s, steps) && Orphan(s, r)
    ensures Orphan(After(c, s, steps), r) && !Request(After(c, s, steps).master).1.Exit?
    decreases steps
  {
    if steps == [] {
      Runs.ExitIff(s.master);
    } else {
      OrphanStays(c, s, steps[0], r);
      StepKeeps(c, s, steps[0]);
      OrphanForever(c, Apply(c, s, steps[0]), steps[1..], r);
    }
  }

  /** A reduce report that lands after a registration reopened the map phase is lost for good: in
      no continuation is the task completed or EXIT answered. */
  lemma LateRegistrationBlocks(c: Valid, s: System, p: nat, steps: seq<Step>)
    requires JobInv(c, s) && p in s.procs && s.procs[p].at.ReduceWritten? && !s.master.phase.Reducing?
    requires IsRun(c, Apply(c, s, SendReport(p)), steps)
    ensures var s' := After(c, Apply(c, s, SendReport(p)), steps);
            && Orphan(s', s.procs[p].at.r)
            && !Request(s'.master).1.Exit?
  {
    var r := s.procs[p].at.r;
    var s1 := Apply(c, s, SendReport(p));
    StepKeeps(c, s, SendReport(p));
    ReportChanges(c, s, p);
    HeldIsInProgress(c, s, p);
    assert HoldsReduce(s.procs[p].at, r);
    HeldAfterMove(s.procs, p, s1.procs[p], r);
    forall q | q in s.procs && q != p ensures !HoldsReduce(s.procs[q].at, r) {
      assert !SameTask(s.procs[p].at, s.procs[q].at);
    }
    OrphanForever(c, s1, steps, r);
  }

  lemma {:induction false} OutsideNeverExits(c: Valid, s: System, steps: seq<Step>)
    requires JobInv(c, s) && IsRun(c, s, steps) && ReportsOutside(c, s, steps) > 0
    ensures !Request(After(c, s, steps).master).1.Exit?
    decreases steps
  {
    hide JobInv, Apply, Request;
    var next := Apply(c, s, steps[0]);
    if LandsOutside(s, steps[0]) {
      LateRegistrationBlocks(c, s, steps[0].p, steps[1..]);
    } else {
      hide Enabled, LandsOutside;
      StepKeeps(c, s, steps[0]);
      OutsideNeverExits(c, next, steps[1..]);
    }
  }

  /** One empty input file, one bucket. */
  const SMALL: Valid := Config(WordCount, ["f"], map["f" := ""], 1, (w: string) => 0)

  function SmallMaster(phase: Phase, mapStatus: TaskStatus, reduceStatus: TaskStatus, workers: map<string, bool>): Master {
    Master(phase, [Task(0, "f", mapStatus)], [Task(0, "", reduceStatus)], 1, 1, workers)
  }

  /** Worker "a" registers and is given the only map task. */
  lemma SmallMapAssigned() returns (steps: seq<Step>)
    ensures IsFaithfulRun(SMALL, Start(SMALL), steps)
    ensures After(SMALL, Start(SMALL), steps)
         == System(SmallMaster(Mapping, InProgress, Idle, map["a" := true]), map[], map[],
                   map[0 := Proc("a", 0, MapAssigned(0, "f"), false)])
  {
    var c := SMALL;
    steps := [];
    assert Start(c).master == SmallMaster(Registering, Idle, Idle, map[]);
    steps := ExtendBy(c, steps, Spawn(0, "a"));
    assert After(c, Start(c), steps).master == SmallMaster(Mapping, Idle, Idle, map["a" := true]);
    steps := ExtendBy(c, steps, Ask(0));
  }

  lemma SmallTruncate(s: System)
    requires s.inter == map[] && s.procs == map[0 := Proc("a", 0, MapAssigned(0, "f"), false)]
    ensures Enabled(SMALL, s, TruncateBuckets(0))
    ensures Apply(SMALL, s, TruncateBuckets(0))
         == s.(inter := map[(0, 0) := ""], procs := map[0 := Proc("a", 0, MapWriting(0, "f", 0), false)])
  {
  }

  lemma SmallFinish(s: System)
    requires s.procs == map[0 := Proc("a", 0, MapWriting(0, "f", 0), false)]
    ensures Enabled(SMALL, s, FinishMap(0))
    ensures Apply(SMALL, s, FinishMap(0)) == s.(procs := map[0 := Proc("a", 0, MapWritten(0), false)])
  {
  }

  /** It runs the map body; the input has no words. */
  lemma SmallMapDone() returns (steps: seq<Step>)
    ensures IsFaithfulRun(SMALL, Start(SMALL), steps)
    ensures After(SMALL, Start(SMALL), steps)
         == System(SmallMaster(Mapping, InProgress, Idle, map["a" := true]), map[(0, 0) := ""], map[],
                   map[0 := Proc("a", 0, MapWritten(0), false)])
  {
    steps := SmallMapAssigned();
    SmallTruncate(After(SMALL, Start(SMALL), steps));
    steps := ExtendBy(SMALL, steps, TruncateBuckets(0));
    SmallFinish(After(SMALL, Start(SMALL), steps));
    steps := ExtendBy(SMALL, steps, FinishMap(0));
  }

  /** It reports and is given the only reduce task. */
  lemma SmallReduceAssigned() returns (steps: seq<Step>)
    ensures IsFaithfulRun(SMALL, Start(SMALL), steps)
    ensures After(SMALL, Start(SMALL), steps)
         == System(SmallMaster(Reducing, Completed, InProgress, map["a" := true]), map[(0, 0) := ""], map[],
                   map[0 := Proc("a", 1, ReduceReading(0, 0, Counts(map[])), false)])
  {
    steps := SmallMapDone();
    steps := ExtendBy(SMALL, steps, SendReport(0));
    assert After(SMALL, Start(SMALL), steps).master == SmallMaster(Mapping, Completed, Idle, map["a" := true]);
    steps := ExtendBy(SMALL, steps, Ask(0));
  }

  /** It does the reduce body; then worker "b" registers. */
  lemma SmallLateRegistration() returns (steps: seq<Step>)
    ensures IsFaithfulRun(SMALL, Start(SMALL), steps)
    ensures var s := After(SMALL, Start(SMALL), steps);
            && s.master == SmallMaster(Mapping, Completed, InProgress, map["a" := true, "b" := true])
            && s.procs == map[0 := Proc("a", 1, ReduceWritten(0), false), 1 := Proc("b", 0, Ready, false)]
  {
    hide Apply, Enabled, Start;
    steps := SmallReduceAssigned();
    SmallRead(After(SMALL, Start(SMALL), steps));
    steps := ExtendBy(SMALL, steps, ReadBucket(0));
    SmallWrite(After(SMALL, Start(SMALL), steps));
    steps := ExtendBy(SMALL, steps, WriteOutput(0, []));
    SmallSecondWorker(After(SMALL, Start(SMALL), steps));
    steps := ExtendBy(SMALL, steps, Spawn(1, "b"));
  }

  lemma SmallRead(s: System)
    requires s.inter == map[(0, 0) := ""] && s.procs == map[0 := Proc("a", 1, ReduceReading(0, 0, Counts(map[])), false)]
    ensures Enabled(SMALL, s, ReadBucket(0))
    ensures Apply(SMALL, s, ReadBucket(0)) == s.(procs := map[0 := Proc("a", 1, ReduceReading(0, 1, Counts(map[])), false)])
  {
  }

  lemma SmallWrite(s: System)
    requires s.procs == map[0 := Proc("a", 1, ReduceReading(0, 1, Counts(map[])), false)]
    ensures Enabled(SMALL, s, WriteOutput(0, []))
    ensures var s' := Apply(SMALL, s, WriteOutput(0, []));
            s'.master == s.master && s'.procs == map[0 := Proc("a", 1, ReduceWritten(0), false)]
  {
  }

  lemma SmallSecondWorker(s: System)
    requires s.master == SmallMaster(Reducing, Completed, InProgress, map["a" := true])
    requires s.procs == map[0 := Proc("a", 1, ReduceWritten(0), false)]
    ensures Enabled(SMALL, s, Spawn(1, "b"))
    ensures var s' := Apply(SMALL, s, Spawn(1, "b"));
            && s'.master == SmallMaster(Mapping, Completed, InProgress, map["a" := true, "b" := true])
            && s'.procs == map[0 := Proc("a", 1, ReduceWritten(0), false), 1 := Proc("b", 0, Ready, false)]
  {
  }

  /** The window is reachable with faithful workers: worker 0 finishes its reduce body, worker 1
      registers, and only then worker 0 reports. */
  lemma LostReportHappens() returns (steps: seq<Step>)
    ensures IsFaithfulRun(SMALL, Start(SMALL), steps)
    ensures Orphan(After(SMALL, Start(SMALL), steps), 0)
  {
    steps := SmallLateRegistration();
    steps := ExtendBy(SMALL, steps, SendReport(0));
    assert After(SMALL, Start(SMALL), steps).procs == map[0 := Proc("a", 1, Ready, false), 1 := Proc("b", 0, Ready, false)];
  }

  lemma ExtendBy(c: Valid, steps: seq<Step>, step: Step) returns (longer: seq<Step>)
    requires IsFaithfulRun(c, Start(c), steps) && Faithful(step)
    requires Enabled(c, After(c, Start(c), steps), step)
    ensures longer == steps + [step] && IsFaithfulRun(c, Start(c), longer)
    ensures After(c, Start(c), longer) == Apply(c, After(c, Start(c), steps), step)
  {
    longer := steps + [step];
    RunExtend(c, Start(c), steps, step);
  }
}
