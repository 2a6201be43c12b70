/** The worker's loop: what a worker does after each answer, that it always has a next step, and that
    nothing but the end of the job (or its own death) ends it. */
module MapReduceLoop {

  import opened MapReduceMaster
  import Runs = MapReduceMasterRuns
  import opened MapReduceWorker
  import opened MapReduceJob
  import opened MapReduceProgress

  /** After its request a worker has started what it was assigned, asks again if it was told to wait, and
      stops if it was told to exit; nobody else has moved. */
  lemma AskOutcome(c: Valid, s: System, p: nat)
    requires JobInv(c, s) && Enabled(c, s, Ask(p))
    ensures var a, s' := Request(s.master).1, Apply(c, s, Ask(p));
            var proc := s'.procs[p];
            && s'.procs == s.procs[p := proc] && s'.inter == s.inter && s'.outs == s.outs
            && !proc.detached && proc.workerId == s.procs[p].workerId
            && (a.MapAssignment? ==> proc.at == MapAssigned(a.taskId, a.inputFile) && proc.nMap == s.procs[p].nMap)
            && (a.ReduceAssignment? ==>
                  && proc.at.ReduceReading? && proc.at.r == a.taskId && proc.at.j == 0 && Words(proc.at.acc) == {}
                  && proc.nMap == |c.files|)
            && (proc.at.Ready? <==> a.Wait?)
            && (proc.at.Stopped? <==> a.Exit?)
  {
    assert ProcOk(c, s.master, s.inter, s.outs, s.procs[p]);
    hide ProcOk;
    RequestChanges(s.master);
    hide Request;
  }

  /** The job has opened and is finished. */
  predicate Over(m: Master) {
    !m.phase.Registering? && AllCompleted(m.mapTasks) && AllCompleted(m.reduceTasks)
  }

  predicate StoppedOk(s: System, p: nat) {
    p in s.procs && !s.procs[p].detached && s.procs[p].at.Stopped? ==> Over(s.master)
  }

  lemma OverStays(c: Valid, s: System, step: Step)
    requires JobInv(c, s) && Enabled(c, s, step) && Over(s.master)
    ensures Over(Apply(c, s, step).master)
  {
    hide ProcsOk, FilesOk;
    if step.Ask? {
      Runs.ExitIff(s.master);
      RequestChanges(s.master);
      Runs.PhaseAfterRequest(s.master);
      hide Request;
    } else if step.SendReport? {
      Runs.ReportKeeps(s.master, ReportedId(s.procs[step.p].at));
      var m' := Report(s.master, ReportedId(s.procs[step.p].at));
      Runs.CompletedStays(s.master.mapTasks, m'.mapTasks);
      Runs.CompletedStays(s.master.reduceTasks, m'.reduceTasks);
    }
  }

  /** A step other than a death stops a worker only by EXIT. */
  lemma StopsByExit(c: Valid, s: System, step: Step, p: nat)
    requires JobInv(c, s) && Enabled(c, s, step) && step != Crash(p)
    requires p in Apply(c, s, step).procs && !Apply(c, s, step).procs[p].detached && Apply(c, s, step).procs[p].at.Stopped?
    ensures (p in s.procs && !s.procs[p].detached && s.procs[p].at.Stopped?) || (step == Ask(p) && Request(s.master).1.Exit?)
  {
    hide ProcsOk, FilesOk, Request;
  }

  lemma StepStops(c: Valid, s: System, step: Step, p: nat)
    requires JobInv(c, s) && Enabled(c, s, step) && step != Crash(p) && StoppedOk(s, p)
    ensures StoppedOk(Apply(c, s, step), p)
  {
    hide JobInv, Apply, Enabled;
    var s' := Apply(c, s, step);
    if p in s'.procs && !s'.procs[p].detached && s'.procs[p].at.Stopped? {
      StopsByExit(c, s, step, p);
      if step == Ask(p) && Request(s.master).1.Exit? {
        assert Runs.Inv(s.master) by { JobMaster(c, s); }
        Runs.ExitIff(s.master);
      }
      OverStays(c, s, step);
    }
  }

  lemma JobMaster(c: Valid, s: System)
    requires JobInv(c, s)
    ensures Runs.Inv(s.master)
  {
  }

  lemma {:induction false} RunStops(c: Valid, s: System, steps: seq<Step>, p: nat)
    requires JobInv(c, s) && IsRun(c, s, steps) && StoppedOk(s, p)
    requires forall k :: 0 <= k < |steps| ==> steps[k] != Crash(p)
    ensures StoppedOk(After(c, s, steps), p)
    decreases steps
  {
    hide JobInv, StoppedOk, Apply, Enabled;
    if steps != [] {
      StepKeeps(c, s, steps[0]);
      StepStops(c, s, steps[0], p);
      RunStops(c, Apply(c, s, steps[0]), steps[1..], p);
    }
  }

  /** In every run, a worker that has not died has stopped only if registration had ended and every task was
      completed; being told to wait never ends it. */
  lemma StopsOnlyWhenDone(c: Valid, steps: seq<Step>, p: nat)
    requires IsRun(c, Start(c), steps) && forall k :: 0 <= k < |steps| ==> steps[k] != Crash(p)
    ensures var s := After(c, Start(c), steps);
            p in s.procs && !s.procs[p].detached && s.procs[p].at.Stopped? ==>
              !s.master.phase.Registering? && AllCompleted(s.master.mapTasks) && AllCompleted(s.master.reduceTasks)
  {
    StartInv(c);
    RunStops(c, Start(c), steps, p);
  }

  /** And one that has not stopped always has a step of its own: to ask, to work or to report. */
  lemma WorkerGoesOn(c: Valid, steps: seq<Step>, p: nat)
    requires IsRun(c, Start(c), steps)
    requires p in After(c, Start(c), steps).procs && !After(c, Start(c), steps).procs[p].at.Stopped?
    ensures exists step: Step :: step.p == p && (step == Ask(p) || Works(step)) && Enabled(c, After(c, Start(c), steps), step)
  {
    StartInv(c);
    RunKeeps(c, Start(c), steps);
    var s := After(c, Start(c), steps);
    if OnMap(s.procs[p].at) {
      var step := MapWorks(c, s, p);
    } else if OnReduce(s.procs[p].at) {
      var step := ReduceWorks(c, s, p);
    } else {
      assert Enabled(c, s, Ask(p)) && Ask(p).p == p;
    }
  }
}
