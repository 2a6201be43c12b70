/** What the master guarantees over any sequence of calls: requests, reports of any id (also ids
    never assigned) and registrations at any time. */
module MapReduceMasterRuns {

  import opened Options
  import opened MapReduceMaster

  datatype Call = RequestCall(workerId: string) | ReportCall(taskId: int) | RegisterCall(workerId: string)

  function Handle(m: Master, call: Call): (Master, Option<Assignment>) {
    match call
    case RequestCall(_) => var (m', a) := Request(m); (m', Some(a))
    case ReportCall(id) => (Report(m, id), None)
    case RegisterCall(w) => (Register(m, w), None)
  }

  function After(m: Master, calls: seq<Call>): Master
    decreases calls
  {
    if calls == [] then m else After(Handle(m, calls[0]).0, calls[1..])
  }

  /** The answer to call number `i` of a run. */
  function ReplyAt(m: Master, calls: seq<Call>, i: nat): Option<Assignment>
    requires i < |calls|
  {
    Handle(After(m, calls[..i]), calls[i]).1
  }

  predicate NoneStarted(tasks: seq<Task>) {
    forall k :: 0 <= k < |tasks| ==> tasks[k].status.Idle?
  }

  /** Task ids are positions. */
  predicate Numbered(m: Master) {
    && |m.mapTasks| == m.numMap
    && |m.reduceTasks| == m.numReduce
    && (forall k :: 0 <= k < |m.mapTasks| ==> m.mapTasks[k].id == k)
    && (forall k :: 0 <= k < |m.reduceTasks| ==> m.reduceTasks[k].id == k)
  }

  /** No reduce task is touched before every map task is completed. */
  predicate Barrier(m: Master) {
    NoneStarted(m.reduceTasks) || AllCompleted(m.mapTasks)
  }

  predicate PhaseFits(m: Master) {
    match m.phase
    case Registering => NoneStarted(m.mapTasks) && NoneStarted(m.reduceTasks)
    case Mapping => true
    case Reducing => AllCompleted(m.mapTasks)
    case Done => AllCompleted(m.mapTasks) && AllCompleted(m.reduceTasks)
  }

  predicate Inv(m: Master) {
    Numbered(m) && Barrier(m) && PhaseFits(m)
  }

  predicate TasksForward(a: seq<Task>, b: seq<Task>) {
    && |a| == |b|
    && forall k :: 0 <= k < |a| ==>
         a[k].id == b[k].id && a[k].inputFile == b[k].inputFile && a[k].status.Rank() <= b[k].status.Rank()
  }

  predicate Forward(a: Master, b: Master) {
    && a.numMap == b.numMap && a.numReduce == b.numReduce
    && TasksForward(a.mapTasks, b.mapTasks)
    && TasksForward(a.reduceTasks, b.reduceTasks)
  }

  lemma ServedMasterInv(numReduce: nat, inputFiles: seq<string>)
    ensures Inv(ServedMaster(numReduce, inputFiles))
  {
  }

  lemma RequestKeeps(m: Master)
    requires Inv(m)
    ensures Inv(Request(m).0) && Forward(m, Request(m).0)
  {
  }

  lemma ReportKeeps(m: Master, id: int)
    requires Inv(m)
    ensures Inv(Report(m, id)) && Forward(m, Report(m, id))
  {
  }

  lemma HandleKeeps(m: Master, call: Call)
    requires Inv(m)
    ensures Inv(Handle(m, call).0)
    ensures Forward(m, Handle(m, call).0)
  {
    match call
    case RequestCall(_) => RequestKeeps(m);
    case ReportCall(id) => ReportKeeps(m, id);
    case RegisterCall(_) =>
  }

  /** In every reachable state the barrier holds, and every task status only moves forward. */
  lemma {:induction false} RunKeeps(m: Master, calls: seq<Call>)
    requires Inv(m)
    ensures Inv(After(m, calls))
    ensures Forward(m, After(m, calls))
    decreases calls
  {
    if calls != [] {
      HandleKeeps(m, calls[0]);
      RunKeeps(Handle(m, calls[0]).0, calls[1..]);
    }
  }

  /** The map barrier, for any job and any calls. */
  lemma MapBarrier(numReduce: nat, inputFiles: seq<string>, calls: seq<Call>, r: nat)
    requires r < numReduce
    ensures var m := After(ServedMaster(numReduce, inputFiles), calls);
            && |m.reduceTasks| == numReduce && |m.mapTasks| == |inputFiles|
            && (!m.reduceTasks[r].status.Idle? ==> AllCompleted(m.mapTasks))
  {
    ServedMasterInv(numReduce, inputFiles);
    RunKeeps(ServedMaster(numReduce, inputFiles), calls);
  }

  lemma {:induction false} AfterAppend(m: Master, a: seq<Call>, b: seq<Call>)
    ensures After(m, a + b) == After(After(m, a), b)
    decreases a
  {
    if a == [] {
      assert a + b == b;
    } else {
      assert (a + b)[1..] == a[1..] + b;
      AfterAppend(Handle(m, a[0]).0, a[1..], b);
    }
  }

  /** EXIT is answered exactly when registration is over and nothing is left to do. */
  lemma ExitIff(m: Master)
    requires Inv(m)
    ensures Request(m).1.Exit? <==>
            !m.phase.Registering? && AllCompleted(m.mapTasks) && AllCompleted(m.reduceTasks)
  {
  }

  lemma CompletedStays(a: seq<Task>, b: seq<Task>)
    requires TasksForward(a, b) && AllCompleted(a)
    ensures AllCompleted(b)
  {
  }

  lemma {:induction false} NotRegisteringStays(m: Master, calls: seq<Call>)
    requires !m.phase.Registering?
    ensures !After(m, calls).phase.Registering?
    decreases calls
  {
    if calls != [] {
      NotRegisteringStays(Handle(m, calls[0]).0, calls[1..]);
    }
  }

  /** Once EXIT has been answered, every later request is answered EXIT, whatever registrations
      and reports come between. */
  lemma ExitStable(m: Master, calls: seq<Call>)
    requires Inv(m) && Request(m).1.Exit?
    ensures Request(After(Request(m).0, calls)).1.Exit?
  {
    var m1 := Request(m).0;
    ExitIff(m);
    HandleKeeps(m, RequestCall(""));
    assert Handle(m, RequestCall("")).0 == m1;
    CompletedStays(m.mapTasks, m1.mapTasks);
    CompletedStays(m.reduceTasks, m1.reduceTasks);
    var m2 := After(m1, calls);
    RunKeeps(m1, calls);
    CompletedStays(m1.mapTasks, m2.mapTasks);
    CompletedStays(m1.reduceTasks, m2.reduceTasks);
    NotRegisteringStays(m1, calls);
    ExitIff(m2);
  }

  /** The same for runs from the start: a request answered EXIT at position `i` finds every task
      completed, and the request at any later position `j` is answered EXIT too. */
  lemma ExitSoundAndStable(numReduce: nat, inputFiles: seq<string>, calls: seq<Call>, i: nat, j: nat)
    requires i <= j < |calls| && calls[i].RequestCall? && calls[j].RequestCall?
    requires ReplyAt(ServedMaster(numReduce, inputFiles), calls, i) == Some(Exit)
    ensures var m := After(ServedMaster(numReduce, inputFiles), calls[..i]);
            AllCompleted(m.mapTasks) && AllCompleted(m.reduceTasks)
    ensures ReplyAt(ServedMaster(numReduce, inputFiles), calls, j) == Some(Exit)
  {
    var m0 := ServedMaster(numReduce, inputFiles);
    var m := After(m0, calls[..i]);
    ServedMasterInv(numReduce, inputFiles);
    RunKeeps(m0, calls[..i]);
    ExitIff(m);
    if i < j {
      AfterAppend(m0, calls[..i], calls[i..j]);
      assert calls[..i] + calls[i..j] == calls[..j];
      assert calls[i..j][1..] == calls[i + 1..j];
      ExitStable(m, calls[i + 1..j]);
    }
  }

  predicate SomeIdle(tasks: seq<Task>) {
    exists k :: 0 <= k < |tasks| && tasks[k].status.Idle?
  }

  /** Exactly when each answer is given. Once registration is over, an idle map task is always handed out;
      without one, and with every map task completed, an idle reduce task is; a worker has to wait only while
      registering, or while the current list has work left and nothing idle. */
  lemma RequestIff(m: Master)
    requires Inv(m)
    ensures var a := Request(m).1;
            && (a.MapAssignment? <==> !m.phase.Registering? && SomeIdle(m.mapTasks))
            && (a.ReduceAssignment? <==> !m.phase.Registering? && AllCompleted(m.mapTasks) && SomeIdle(m.reduceTasks))
            && (a.Wait? <==>
                  || m.phase.Registering?
                  || (!AllCompleted(m.mapTasks) && !SomeIdle(m.mapTasks))
                  || (AllCompleted(m.mapTasks) && !AllCompleted(m.reduceTasks) && !SomeIdle(m.reduceTasks)))
  {
    var k, r := FirstIdle(m.mapTasks), FirstIdle(m.reduceTasks);
    assert SomeIdle(m.mapTasks) <==> k < |m.mapTasks|;
    assert SomeIdle(m.reduceTasks) <==> r < |m.reduceTasks|;
  }

  /** The phase a request leaves behind. */
  lemma PhaseAfterRequest(m: Master)
    requires Inv(m)
    ensures var (m', a) := Request(m);
            match m'.phase
            case Registering => m.phase.Registering? && a.Wait?
            case Mapping => a.MapAssignment? || (a.Wait? && !AllCompleted(m.mapTasks))
            case Reducing => a.ReduceAssignment? || (a.Wait? && AllCompleted(m.mapTasks))
            case Done => a.Exit?
  {
  }

  /** A report completes exactly the task of its id in the list of the current phase, and changes nothing else. */
  lemma ReportMarksIff(m: Master, id: int, k: nat)
    requires Inv(m)
    ensures var m' := Report(m, id);
            && m' == m.(mapTasks := m'.mapTasks, reduceTasks := m'.reduceTasks)
            && |m'.mapTasks| == m.numMap && |m'.reduceTasks| == m.numReduce
            && (k < m.numMap ==> m'.mapTasks[k] == if m.phase.Mapping? && id == k then m.mapTasks[k].(status := Completed) else m.mapTasks[k])
            && (k < m.numReduce ==> m'.reduceTasks[k] == if m.phase.Reducing? && id == k then m.reduceTasks[k].(status := Completed) else m.reduceTasks[k])
  {
  }

  // ---- When the job opens ----

  /** The workers that have registered. */
  function Registered(calls: seq<Call>): set<string> {
    set k | 0 <= k < |calls| && calls[k].RegisterCall? :: calls[k].workerId
  }

  predicate Waiting(m: Master) {
    m.phase.Registering? <==> m.workers == map[] || |m.workers| < m.numReduce
  }

  lemma MoreWorkers(a: set<string>, b: set<string>)
    requires a <= b
    ensures |a| <= |b|
  {
    assert b == a + (b - a);
  }

  lemma RegisterWaits(m: Master, id: string)
    requires Waiting(m)
    ensures Waiting(Register(m, id)) && Register(m, id).workers.Keys == m.workers.Keys + {id}
  {
    var m' := Register(m, id);
    MoreWorkers(m.workers.Keys, m'.workers.Keys);
    assert |m.workers| == |m.workers.Keys| && |m'.workers| == |m'.workers.Keys|;
    assert id in m'.workers;
  }

  lemma OthersWait(m: Master, call: Call)
    requires !call.RegisterCall?
    ensures var m' := Handle(m, call).0;
            (m'.phase.Registering? <==> m.phase.Registering?) && m'.workers == m.workers && m'.numReduce == m.numReduce
  {
  }

  lemma HandleWaits(m: Master, call: Call)
    requires Waiting(m)
    ensures var m' := Handle(m, call).0;
            && Waiting(m') && m'.numReduce == m.numReduce
            && m'.workers.Keys == m.workers.Keys + if call.RegisterCall? then {call.workerId} else {}
  {
    if call.RegisterCall? {
      RegisterWaits(m, call.workerId);
    } else {
      hide Handle;
      OthersWait(m, call);
    }
  }

  lemma RegisteredFirst(calls: seq<Call>)
    requires calls != []
    ensures Registered(calls) == Registered(calls[1..]) + if calls[0].RegisterCall? then {calls[0].workerId} else {}
  {
    forall w | w in Registered(calls) ensures w in Registered(calls[1..]) || (calls[0].RegisterCall? && w == calls[0].workerId) {
      var k :| 0 <= k < |calls| && calls[k].RegisterCall? && calls[k].workerId == w;
      assert k > 0 ==> calls[1..][k - 1] == calls[k];
    }
    forall w | w in Registered(calls[1..]) ensures w in Registered(calls) {
      var k :| 0 <= k < |calls[1..]| && calls[1..][k].RegisterCall? && calls[1..][k].workerId == w;
      assert calls[k + 1] == calls[1..][k];
    }
  }

  lemma {:induction false} RunWaits(m: Master, calls: seq<Call>)
    requires Waiting(m)
    ensures var m' := After(m, calls);
            Waiting(m') && m'.numReduce == m.numReduce && m'.workers.Keys == m.workers.Keys + Registered(calls)
    decreases calls
  {
    if calls == [] {
      assert Registered(calls) == {};
    } else {
      hide Handle, Waiting, Registered;
      HandleWaits(m, calls[0]);
      RegisteredFirst(calls);
      RunWaits(Handle(m, calls[0]).0, calls[1..]);
    }
  }

  /** The job opens exactly when as many distinct workers have registered as there are reduce tasks (and at
      least one), whatever is requested and reported meanwhile, and it stays open. */
  lemma OpensIff(numReduce: nat, inputFiles: seq<string>, calls: seq<Call>)
    ensures After(ServedMaster(numReduce, inputFiles), calls).phase.Registering? <==>
            Registered(calls) == {} || |Registered(calls)| < numReduce
  {
    var m0 := ServedMaster(numReduce, inputFiles);
    RunWaits(m0, calls);
    var m := After(m0, calls);
    assert m.workers.Keys == Registered(calls) && |m.workers| == |m.workers.Keys|;
    assert m.workers == map[] <==> m.workers.Keys == {};
  }

  /** What a request hands out was the first idle task, is in progress afterwards, and is named by its
      position; a reduce assignment lists the bucket of every map task for its id. */
  lemma HandsOutIdle(m: Master)
    requires Inv(m)
    ensures var (m', a) := Request(m);
            match a
            case MapAssignment(id, file) =>
              && id < m.numMap && m.mapTasks[id].status.Idle? && m'.mapTasks[id].status.InProgress?
              && (forall j :: 0 <= j < id ==> !m.mapTasks[j].status.Idle?)
              && file == m.mapTasks[id].inputFile
            case ReduceAssignment(id, files) =>
              && id < m.numReduce && m.reduceTasks[id].status.Idle? && m'.reduceTasks[id].status.InProgress?
              && (forall j :: 0 <= j < id ==> !m.reduceTasks[j].status.Idle?)
              && |files| == m.numMap
              && (forall j :: 0 <= j < m.numMap ==> files[j] == (j, id))
            case _ => true
  {
  }

  predicate SameTask(a: Assignment, b: Assignment) {
    || (a.MapAssignment? && b.MapAssignment? && a.taskId == b.taskId)
    || (a.ReduceAssignment? && b.ReduceAssignment? && a.taskId == b.taskId)
  }

  /** Over any run, no map id and no reduce id is handed out twice. */
  lemma NeverHandedOutTwice(m0: Master, calls: seq<Call>, i: nat, j: nat)
    requires Inv(m0) && i < j < |calls|
    requires ReplyAt(m0, calls, i).Some? && ReplyAt(m0, calls, j).Some?
    ensures !SameTask(ReplyAt(m0, calls, i).value, ReplyAt(m0, calls, j).value)
  {
    hide Request, Report, Register, Barrier, PhaseFits;
    var mi, mj := After(m0, calls[..i]), After(m0, calls[..j]);
    RunKeeps(m0, calls[..i]);
    HandleKeeps(mi, calls[i]);
    AfterAppend(m0, calls[..i], calls[i..j]);
    assert calls[..i] + calls[i..j] == calls[..j];
    assert calls[i..j][1..] == calls[i + 1..j];
    var next := Handle(mi, calls[i]).0;
    RunKeeps(next, calls[i + 1..j]);
    assert Forward(next, mj);
    HandsOutIdle(mi);
    HandsOutIdle(mj);
  }
}
