/** The master of a job: the state its lock protects, what each handler does to that state, and
    the server object whose handlers do it. */
module MapReduceMaster {

  datatype TaskStatus = Idle | InProgress | Completed {
    function Rank(): nat {
      match this
      case Idle => 0
      case InProgress => 1
      case Completed => 2
    }
  }

  datatype Task = Task(id: nat, inputFile: string, status: TaskStatus)

  datatype Phase = Registering | Mapping | Reducing | Done

  datatype Master = Master(
    phase: Phase,
    mapTasks: seq<Task>,
    reduceTasks: seq<Task>,
    numReduce: nat,
    numMap: nat,
    workers: map<string, bool>)

  /** `files` lists the buckets (map id, reduce id) a reducer reads, one per "mr-i-j.txt". */
  datatype Assignment =
    | MapAssignment(taskId: nat, inputFile: string)
    | ReduceAssignment(taskId: nat, files: seq<(nat, nat)>)
    | Wait
    | Exit

  /** Index of the first idle task, or the number of tasks. */
  function FirstIdle(tasks: seq<Task>): (k: nat)
    ensures k <= |tasks|
    ensures k < |tasks| ==> tasks[k].status.Idle?
    ensures forall j :: 0 <= j < k ==> !tasks[j].status.Idle?
  {
    if tasks == [] || tasks[0].status.Idle? then 0 else 1 + FirstIdle(tasks[1..])
  }

  predicate AllCompleted(tasks: seq<Task>) {
    forall k :: 0 <= k < |tasks| ==> tasks[k].status.Completed?
  }

  function SetStatus(tasks: seq<Task>, k: nat, status: TaskStatus): seq<Task>
    requires k < |tasks|
  {
    tasks[k := tasks[k].(status := status)]
  }

  function Buckets(numMap: nat, reduceId: nat): seq<(nat, nat)> {
    seq(numMap, j => (j, reduceId))
  }

  /** A request once the phase is `Reducing`. */
  function RequestReduce(m: Master): (Master, Assignment) {
    var k := FirstIdle(m.reduceTasks);
    if k < |m.reduceTasks| then
      (m.(reduceTasks := SetStatus(m.reduceTasks, k, InProgress)),
       ReduceAssignment(m.reduceTasks[k].id, Buckets(m.numMap, m.reduceTasks[k].id)))
    else if AllCompleted(m.reduceTasks) then (m.(phase := Done), Exit)
    else (m, Wait)
  }

  function Request(m: Master): (Master, Assignment) {
    match m.phase
    case Mapping =>
      var k := FirstIdle(m.mapTasks);
      if k < |m.mapTasks| then
        (m.(mapTasks := SetStatus(m.mapTasks, k, InProgress)),
         MapAssignment(m.mapTasks[k].id, m.mapTasks[k].inputFile))
      else if AllCompleted(m.mapTasks) then RequestReduce(m.(phase := Reducing))
      else (m, Wait)
    case Reducing => RequestReduce(m)
    case Registering => (m, Wait)
    case Done => (m, Exit)
  }

  /** Index of the first task with the given id, or the number of tasks. */
  function FindId(tasks: seq<Task>, id: int): (k: nat)
    ensures k <= |tasks|
    ensures k < |tasks| ==> tasks[k].id == id
    ensures forall j :: 0 <= j < k ==> tasks[j].id != id
  {
    if tasks == [] || tasks[0].id == id then 0 else 1 + FindId(tasks[1..], id)
  }

  function Complete(tasks: seq<Task>, id: int): seq<Task> {
    var k := FindId(tasks, id);
    if k < |tasks| then SetStatus(tasks, k, Completed) else tasks
  }

  /** A report names only an id; the phase decides which list it is looked up in. */
  function Report(m: Master, taskId: int): Master {
    match m.phase
    case Mapping => m.(mapTasks := Complete(m.mapTasks, taskId))
    case Reducing => m.(reduceTasks := Complete(m.reduceTasks, taskId))
    case _ => m
  }

  function Register(m: Master, workerId: string): Master {
    var workers := m.workers[workerId := true];
    m.(workers := workers, phase := if |workers| >= m.numReduce then Mapping else m.phase)
  }

  /** One map task per input file, one reduce task per bucket, all idle. */
  function NewMaster(numReduce: nat, inputFiles: seq<string>): Master {
    Master(Mapping,
           seq(|inputFiles|, i requires 0 <= i < |inputFiles| => Task(i, inputFiles[i], Idle)),
           seq(numReduce, i requires 0 <= i < numReduce => Task(i, "", Idle)),
           numReduce, |inputFiles|, map[])
  }

  /** The main program opens the registration phase before it serves. */
  function ServedMaster(numReduce: nat, inputFiles: seq<string>): Master {
    NewMaster(numReduce, inputFiles).(phase := Registering)
  }

  /** The server object; every handler runs under its lock. */
  class MasterServer {
    var phase: Phase
    var mapTasks: seq<Task>
    var reduceTasks: seq<Task>
    var numReduce: nat
    var numMap: nat
    var registeredWorkers: map<string, bool>

    ghost function State(): Master
      reads this
    {
      Master(phase, mapTasks, reduceTasks, numReduce, numMap, registeredWorkers)
    }

    constructor (numReduce: nat, inputFiles: seq<string>)
      ensures State() == NewMaster(numReduce, inputFiles)
    {
      var mTasks: seq<Task> := [];
      for i := 0 to |inputFiles|
        invariant |mTasks| == i
        invariant forall k :: 0 <= k < i ==> mTasks[k] == Task(k, inputFiles[k], Idle)
      {
        mTasks := mTasks + [Task(i, inputFiles[i], Idle)];
      }
      var rTasks: seq<Task> := [];
      for i := 0 to numReduce
        invariant |rTasks| == i
        invariant forall k :: 0 <= k < i ==> rTasks[k] == Task(k, "", Idle)
      {
        rTasks := rTasks + [Task(i, "", Idle)];
      }
      phase, mapTasks, reduceTasks := Mapping, mTasks, rTasks;
      this.numReduce, numMap, registeredWorkers := numReduce, |mTasks|, map[];
    }

    static method ScanIdle(tasks: seq<Task>) returns (k: nat)
      ensures k == FirstIdle(tasks)
    {
      k := 0;
      while k < |tasks|
        invariant k <= |tasks|
        invariant forall j :: 0 <= j < k ==> !tasks[j].status.Idle?
      {
        if tasks[k].status.Idle? { return; }
        k := k + 1;
      }
    }

    static method ScanAllDone(tasks: seq<Task>) returns (allDone: bool)
      ensures allDone == AllCompleted(tasks)
    {
      allDone := true;
      for k := 0 to |tasks|
        invariant allDone
        invariant forall j :: 0 <= j < k ==> tasks[j].status.Completed?
      {
        if !tasks[k].status.Completed? {
          allDone := false;
          return;
        }
      }
    }

    static method BucketNames(numMap: nat, reduceId: nat) returns (interFiles: seq<(nat, nat)>)
      ensures interFiles == Buckets(numMap, reduceId)
    {
      interFiles := [];
      for j := 0 to numMap
        invariant |interFiles| == j
        invariant forall k :: 0 <= k < j ==> interFiles[k] == (k, reduceId)
      {
        interFiles := interFiles + [(j, reduceId)];
      }
    }

    method RequestTask(workerId: string) returns (a: Assignment)
      modifies this
      ensures (State(), a) == Request(old(State()))
    {
      if phase == Mapping {
        var i := ScanIdle(mapTasks);
        if i < |mapTasks| {
          mapTasks := mapTasks[i := mapTasks[i].(status := InProgress)];
          return MapAssignment(mapTasks[i].id, mapTasks[i].inputFile);
        }
        var allDone := ScanAllDone(mapTasks);
        if allDone {
          phase := Reducing;
        } else {
          return Wait;
        }
      }
      if phase == Reducing {
        var i := ScanIdle(reduceTasks);
        if i < |reduceTasks| {
          reduceTasks := reduceTasks[i := reduceTasks[i].(status := InProgress)];
          var interFiles := BucketNames(numMap, reduceTasks[i].id);
          return ReduceAssignment(reduceTasks[i].id, interFiles);
        }
        var allDone := ScanAllDone(reduceTasks);
        if allDone {
          phase := Done;
        } else {
          return Wait;
        }
      }
      if phase == Registering { return Wait; }
      return Exit;
    }

    static method MarkCompleted(tasks: seq<Task>, taskId: int) returns (marked: seq<Task>)
      ensures marked == Complete(tasks, taskId)
    {
      marked := tasks;
      for i := 0 to |tasks|
        invariant marked == tasks
        invariant forall j :: 0 <= j < i ==> tasks[j].id != taskId
      {
        if tasks[i].id == taskId {
          marked := tasks[i := tasks[i].(status := Completed)];
          return;
        }
      }
    }

    method ReportTask(taskId: int)
      modifies this
      ensures State() == Report(old(State()), taskId)
    {
      if phase == Mapping {
        mapTasks := MarkCompleted(mapTasks, taskId);
      } else if phase == Reducing {
        reduceTasks := MarkCompleted(reduceTasks, taskId);
      }
    }

    method RegisterWorker(workerId: string)
      modifies this
      ensures State() == Register(old(State()), workerId)
    {
      registeredWorkers := registeredWorkers[workerId := true];
      if |registeredWorkers| >= numReduce {
        phase := Mapping;
      }
    }
  }
}
