/** A whole job: one master, any number of worker processes that come, work and die in any
    interleaving, and the files they share. */
module MapReduceJob {

  import opened MapReduceText
  import opened MapReduceMaster
  import Runs = MapReduceMasterRuns
  import opened MapReduceWorker

  datatype JobType = WordCount | InvertedIndex

  /** `files` are the input paths given to the master, `disk` what they hold. */
  datatype Config = Config(job: JobType, files: seq<string>, disk: map<string, string>, numReduce: nat, sum: string -> nat)

  predicate ValidConfig(c: Config) {
    && c.files != [] && c.numReduce > 0
    && (forall i :: 0 <= i < |c.files| ==> c.files[i] in c.disk)
    && (c.job.InvertedIndex? ==> forall i :: 0 <= i < |c.files| ==> IsToken(BaseName(c.files[i])))
  }

  type Valid = c: Config | ValidConfig(c)
    witness Config(WordCount, [""], map["" := ""], 1, (w: string) => 0)

  function FileWords(c: Valid, file: string): seq<string>
    requires file in c.disk
  {
    Fields(c.disk[file])
  }

  /** The second field of every line a map body writes. */
  function FileValue(c: Valid, file: string): string {
    match c.job
    case WordCount => "1"
    case InvertedIndex => BaseName(file)
  }

  function InputWords(c: Valid, i: nat): seq<string>
    requires i < |c.files|
  {
    FileWords(c, c.files[i])
  }

  function LineValue(c: Valid, i: nat): string
    requires i < |c.files|
  {
    FileValue(c, c.files[i])
  }

  function BucketAfter(c: Valid, i: nat, k: nat, b: nat): string
    requires i < |c.files| && k <= |InputWords(c, i)|
  {
    BucketText(c.sum, c.numReduce, InputWords(c, i)[..k], LineValue(c, i), b)
  }

  function FinalBucket(c: Valid, i: nat, b: nat): string
    requires i < |c.files|
  {
    BucketText(c.sum, c.numReduce, InputWords(c, i), LineValue(c, i), b)
  }

  function EmptyAccumulator(c: Valid): Accumulator {
    match c.job
    case WordCount => Counts(map[])
    case InvertedIndex => Index(map[])
  }

  // ---- State ----

  /** Where a worker process is in its loop. `MapWriting(i, file, k)` has written the first `k` words
      of its input, `ReduceReading(r, j, acc)` has merged the first `j` buckets. */
  datatype Activity =
    | Ready
    | MapAssigned(i: nat, file: string)
    | MapWriting(i: nat, file: string, k: nat)
    | MapWritten(i: nat)
    | ReduceReading(r: nat, j: nat, acc: Accumulator)
    | ReduceWritten(r: nat)
    | Stopped

  /** A worker, or a report on its way whose worker has stopped waiting for it (`detached`). `nMap` is 0
      until the first reduce assignment sets it. */
  datatype Proc = Proc(workerId: string, nMap: nat, at: Activity, detached: bool)

  datatype System = System(
    master: Master,
    inter: map<(nat, nat), string>,
    outs: map<nat, seq<OutLine>>,
    procs: map<nat, Proc>)

  function Start(c: Valid): System {
    System(ServedMaster(c.numReduce, c.files), map[], map[], map[])
  }

  /** One atomic step of process `p`. */
  datatype Step =
    | Spawn(p: nat, workerId: string)           // starts and registers
    | Ask(p: nat)                               // RequestTask and its answer
    | TruncateBuckets(p: nat)
    | WriteNextWord(p: nat)
    | FinishMap(p: nat)
    | ReadBucket(p: nat)
    | WriteOutput(p: nat, lines: seq<OutLine>)
    | SendReport(p: nat)                        // the master handles ReportTask
    | LoseReport(p: nat)                        // the report fails and is only logged
    | DelayReport(p: nat, q: nat)               // its deadline passes first; it may still arrive
    | Crash(p: nat)

  predicate Enabled(c: Valid, s: System, step: Step) {
    if step.Spawn? then step.p !in s.procs
    else if step.p !in s.procs then false
    else
      var at := s.procs[step.p].at;
      match step
      case Spawn(_, _) => false
      case Ask(_) => at.Ready?
      case TruncateBuckets(_) => at.MapAssigned? && at.file in c.disk
      case WriteNextWord(_) =>
        at.MapWriting? && at.file in c.disk && at.k < |FileWords(c, at.file)| &&
        (at.i, Bucket(c.sum, FileWords(c, at.file)[at.k], c.numReduce)) in s.inter
      case FinishMap(_) => at.MapWriting? && at.file in c.disk && at.k == |FileWords(c, at.file)|
      case ReadBucket(_) => at.ReduceReading? && at.j < s.procs[step.p].nMap
      case WriteOutput(_, lines) =>
        at.ReduceReading? && at.j == s.procs[step.p].nMap && IsListing(at.acc, lines)
      case SendReport(_) => at.MapWritten? || at.ReduceWritten?
      case LoseReport(_) => at.MapWritten? || at.ReduceWritten?
      case DelayReport(_, q) => (at.MapWritten? || at.ReduceWritten?) && !s.procs[step.p].detached && q !in s.procs
      case Crash(_) => true
  }

  function Move(s: System, p: nat, at: Activity): System
    requires p in s.procs
  {
    s.(procs := s.procs[p := s.procs[p].(at := at)])
  }

  /** How a worker continues with the answer to its request. */
  function Accept(c: Valid, proc: Proc, a: Assignment): Proc {
    match a
    case MapAssignment(i, file) => proc.(at := MapAssigned(i, file))
    case ReduceAssignment(r, files) =>
      proc.(nMap := if proc.nMap == 0 then |files| else proc.nMap, at := ReduceReading(r, 0, EmptyAccumulator(c)))
    case Wait => proc
    case Exit => proc.(at := Stopped)
  }

  function EmptyBuckets(i: nat, nReduce: nat): map<(nat, nat), string> {
    map b: nat | 0 <= b < nReduce :: (i, b) := ""
  }

  function ReportedId(at: Activity): nat
    requires at.MapWritten? || at.ReduceWritten?
  {
    if at.MapWritten? then at.i else at.r
  }

  /** A worker goes on to its next request; a detached report is over. */
  function AfterReport(proc: Proc): Activity {
    if proc.detached then Stopped else Ready
  }

  function Apply(c: Valid, s: System, step: Step): System
    requires Enabled(c, s, step)
  {
    match step
    case Spawn(p, id) => s.(master := Register(s.master, id), procs := s.procs[p := Proc(id, 0, Ready, false)])
    case Ask(p) =>
      var (m, a) := Request(s.master);
      s.(master := m, procs := s.procs[p := Accept(c, s.procs[p], a)])
    case TruncateBuckets(p) =>
      var MapAssigned(i, file) := s.procs[p].at;
      Move(s.(inter := s.inter + EmptyBuckets(i, c.numReduce)), p, MapWriting(i, file, 0))
    case WriteNextWord(p) =>
      var MapWriting(i, file, k) := s.procs[p].at;
      var w := FileWords(c, file)[k];
      Move(s.(inter := AppendLine(s.inter, (i, Bucket(c.sum, w, c.numReduce)), w, FileValue(c, file))),
           p, MapWriting(i, file, k + 1))
    case FinishMap(p) => Move(s, p, MapWritten(s.procs[p].at.i))
    case ReadBucket(p) =>
      var ReduceReading(r, j, acc) := s.procs[p].at;
      Move(s, p, ReduceReading(r, j + 1, if (j, r) in s.inter then Absorb(acc, ParseFile(s.inter[(j, r)])) else acc))
    case WriteOutput(p, lines) =>
      var r := s.procs[p].at.r;
      Move(s.(outs := s.outs[r := lines]), p, ReduceWritten(r))
    case SendReport(p) =>
      Move(s.(master := Report(s.master, ReportedId(s.procs[p].at))), p, AfterReport(s.procs[p]))
    case LoseReport(p) => Move(s, p, AfterReport(s.procs[p]))
    case DelayReport(p, q) =>
      var proc := s.procs[p];
      s.(procs := s.procs[p := proc.(at := Ready)][q := proc.(detached := true)])
    case Crash(p) => Move(s, p, Stopped)
  }

  predicate IsRun(c: Valid, s: System, steps: seq<Step>)
    decreases steps
  {
    steps == [] || (Enabled(c, s, steps[0]) && IsRun(c, Apply(c, s, steps[0]), steps[1..]))
  }

  function After(c: Valid, s: System, steps: seq<Step>): System
    requires IsRun(c, s, steps)
    decreases steps
  {
    if steps == [] then s else After(c, Apply(c, s, steps[0]), steps[1..])
  }

  // ---- Invariant ----

  predicate OnMap(at: Activity) {
    at.MapAssigned? || at.MapWriting? || at.MapWritten?
  }

  predicate OnReduce(at: Activity) {
    at.ReduceReading? || at.ReduceWritten?
  }

  predicate HoldsMap(at: Activity, i: nat) {
    OnMap(at) && at.i == i
  }

  predicate HoldsReduce(at: Activity, r: nat) {
    OnReduce(at) && at.r == r
  }

  predicate FitsConfig(c: Valid, m: Master) {
    && m.numMap == |c.files| && m.numReduce == c.numReduce
    && |m.mapTasks| == |c.files|
    && forall i :: 0 <= i < |c.files| ==> m.mapTasks[i].inputFile == c.files[i]
  }

  predicate BucketsFinal(c: Valid, inter: map<(nat, nat), string>, i: nat)
    requires i < |c.files|
  {
    forall b :: 0 <= b < c.numReduce ==> (i, b) in inter && inter[(i, b)] == FinalBucket(c, i, b)
  }

  /** The accumulator a reducer must hold after `j` buckets. */
  function Expected(c: Valid, r: nat, j: nat): Accumulator
    requires j <= |c.files|
  {
    if j == 0 then EmptyAccumulator(c) else Absorb(Expected(c, r, j - 1), ParseFile(FinalBucket(c, j - 1, r)))
  }

  predicate OutputFinal(c: Valid, outs: map<nat, seq<OutLine>>, r: nat) {
    r in outs && IsListing(Expected(c, r, |c.files|), outs[r])
  }

  /** The task a process holds is in progress, and the files it is writing are right so far. */
  predicate ProcOk(c: Valid, m: Master, inter: map<(nat, nat), string>, outs: map<nat, seq<OutLine>>, proc: Proc)
    requires Runs.Numbered(m) && FitsConfig(c, m)
  {
    && (proc.nMap == 0 || proc.nMap == m.numMap)
    && (proc.detached ==> proc.at.MapWritten? || proc.at.ReduceWritten? || proc.at.Stopped?)
    && match proc.at
       case Ready => true
       case MapAssigned(i, file) => i < m.numMap && m.mapTasks[i].status.InProgress? && file == c.files[i]
       case MapWriting(i, file, k) =>
         && i < m.numMap && m.mapTasks[i].status.InProgress? && file == c.files[i]
         && k <= |InputWords(c, i)|
         && forall b :: 0 <= b < c.numReduce ==> (i, b) in inter && inter[(i, b)] == BucketAfter(c, i, k, b)
       case MapWritten(i) => i < m.numMap && m.mapTasks[i].status.InProgress? && BucketsFinal(c, inter, i)
       case ReduceReading(r, j, acc) =>
         && r < m.numReduce && m.reduceTasks[r].status.InProgress?
         && proc.nMap == m.numMap && j <= m.numMap && acc == Expected(c, r, j)
       case ReduceWritten(r) => r < m.numReduce && m.reduceTasks[r].status.InProgress? && OutputFinal(c, outs, r)
       case Stopped => true
  }

  predicate SameTask(a: Activity, b: Activity) {
    || (OnMap(a) && HoldsMap(b, a.i))
    || (OnReduce(a) && HoldsReduce(b, a.r))
  }

  predicate Exclusive(procs: map<nat, Proc>) {
    forall p, q :: p in procs && q in procs && p != q ==> !SameTask(procs[p].at, procs[q].at)
  }

  predicate FilesOk(c: Valid, m: Master, inter: map<(nat, nat), string>, outs: map<nat, seq<OutLine>>)
    requires Runs.Numbered(m) && FitsConfig(c, m)
  {
    && (forall i :: 0 <= i < m.numMap && m.mapTasks[i].status.Completed? ==> BucketsFinal(c, inter, i))
    && (forall r :: 0 <= r < m.numReduce && m.reduceTasks[r].status.Completed? ==> OutputFinal(c, outs, r))
  }

  predicate ProcsOk(c: Valid, s: System)
    requires Runs.Numbered(s.master) && FitsConfig(c, s.master)
  {
    forall p :: p in s.procs ==> ProcOk(c, s.master, s.inter, s.outs, s.procs[p])
  }

  predicate JobInv(c: Valid, s: System) {
    && Runs.Inv(s.master) && FitsConfig(c, s.master)
    && ProcsOk(c, s)
    && Exclusive(s.procs)
    && FilesOk(c, s.master, s.inter, s.outs)
  }

  lemma StartInv(c: Valid)
    ensures JobInv(c, Start(c))
  {
  }

  // ---- Steps keep the invariant ----

  /** A change of the master that moves no in-progress task keeps every process's claim. */
  lemma ProcOkFrame(c: Valid, m: Master, m': Master, inter: map<(nat, nat), string>, outs: map<nat, seq<OutLine>>, proc: Proc)
    requires Runs.Numbered(m) && FitsConfig(c, m) && Runs.Numbered(m') && FitsConfig(c, m')
    requires ProcOk(c, m, inter, outs, proc)
    requires forall i :: 0 <= i < m.numMap && HoldsMap(proc.at, i) ==> m'.mapTasks[i].status == m.mapTasks[i].status
    requires forall r :: 0 <= r < m.numReduce && HoldsReduce(proc.at, r) ==> m'.reduceTasks[r].status == m.reduceTasks[r].status
    ensures ProcOk(c, m', inter, outs, proc)
  {
  }

  lemma FilesFrame(c: Valid, m: Master, m': Master, inter: map<(nat, nat), string>, outs: map<nat, seq<OutLine>>)
    requires Runs.Numbered(m) && FitsConfig(c, m) && Runs.Numbered(m') && FitsConfig(c, m')
    requires m'.mapTasks == m.mapTasks && m'.reduceTasks == m.reduceTasks && FilesOk(c, m, inter, outs)
    ensures FilesOk(c, m', inter, outs)
  {
  }

  lemma NewProcOk(c: Valid, m: Master, inter: map<(nat, nat), string>, outs: map<nat, seq<OutLine>>, id: string)
    requires Runs.Numbered(m) && FitsConfig(c, m)
    ensures ProcOk(c, m, inter, outs, Proc(id, 0, Ready, false))
  {
  }

  lemma SpawnKeeps(c: Valid, s: System, p: nat, id: string)
    requires JobInv(c, s) && Enabled(c, s, Spawn(p, id))
    ensures JobInv(c, Apply(c, s, Spawn(p, id)))
  {
    hide ProcOk, FilesOk, Runs.Barrier, Runs.PhaseFits;
    Runs.HandleKeeps(s.master, Runs.RegisterCall(id));
    var s' := Apply(c, s, Spawn(p, id));
    assert Runs.Handle(s.master, Runs.RegisterCall(id)).0 == s'.master;
    assert s'.master.mapTasks == s.master.mapTasks && s'.master.reduceTasks == s.master.reduceTasks;
    NewProcOk(c, s'.master, s.inter, s.outs, id);
    FilesFrame(c, s.master, s'.master, s.inter, s.outs);
    forall q | q in s.procs ensures ProcOk(c, s'.master, s'.inter, s'.outs, s.procs[q]) {
      ProcOkFrame(c, s.master, s'.master, s.inter, s.outs, s.procs[q]);
    }
  }

  /** Nobody holds a task that is not in progress. */
  lemma HeldIsInProgress(c: Valid, s: System, q: nat)
    requires JobInv(c, s) && q in s.procs
    ensures forall i: nat :: HoldsMap(s.procs[q].at, i) ==> i < s.master.numMap && s.master.mapTasks[i].status.InProgress?
    ensures forall r: nat :: HoldsReduce(s.procs[q].at, r) ==> r < s.master.numReduce && s.master.reduceTasks[r].status.InProgress?
  {
  }

  lemma RequestChanges(m: Master)
    requires Runs.Inv(m)
    ensures var (m', a) := Request(m);
            match a
            case MapAssignment(id, file) =>
              && id < m.numMap && m.mapTasks[id].status.Idle? && file == m.mapTasks[id].inputFile
              && m'.mapTasks == SetStatus(m.mapTasks, id, InProgress) && m'.reduceTasks == m.reduceTasks
            case ReduceAssignment(id, files) =>
              && id < m.numReduce && m.reduceTasks[id].status.Idle? && |files| == m.numMap
              && m'.reduceTasks == SetStatus(m.reduceTasks, id, InProgress) && m'.mapTasks == m.mapTasks
            case _ => m'.mapTasks == m.mapTasks && m'.reduceTasks == m.reduceTasks
  {
  }

  lemma AskerOk(c: Valid, s: System, p: nat)
    requires JobInv(c, s) && Enabled(c, s, Ask(p))
    ensures var s' := Apply(c, s, Ask(p));
            Runs.Inv(s'.master) && FitsConfig(c, s'.master) && ProcOk(c, s'.master, s'.inter, s'.outs, s'.procs[p])
  {
    hide IsListing, FinalBucket, BucketAfter, InputWords, Request, Absorb, Exclusive, FilesOk;
    assert ProcOk(c, s.master, s.inter, s.outs, s.procs[p]);
    Runs.HandleKeeps(s.master, Runs.RequestCall(""));
    RequestChanges(s.master);
  }

  lemma AskProcOk(c: Valid, s: System, p: nat, q: nat)
    requires JobInv(c, s) && Enabled(c, s, Ask(p)) && q in s.procs
    ensures var s' := Apply(c, s, Ask(p));
            Runs.Inv(s'.master) && FitsConfig(c, s'.master) && ProcOk(c, s'.master, s'.inter, s'.outs, s'.procs[q])
  {
    hide IsListing, FinalBucket, BucketAfter, InputWords, Request, Absorb, Exclusive, FilesOk, ProcOk;
    AskerOk(c, s, p);
    if q != p {
      RequestChanges(s.master);
      HeldIsInProgress(c, s, q);
      ProcOkFrame(c, s.master, Request(s.master).0, s.inter, s.outs, s.procs[q]);
    }
  }

  lemma AskExclusive(c: Valid, s: System, p: nat)
    requires JobInv(c, s) && Enabled(c, s, Ask(p))
    ensures Exclusive(Apply(c, s, Ask(p)).procs)
  {
    hide ProcOk, FilesOk, Request;
    RequestChanges(s.master);
    var s' := Apply(c, s, Ask(p));
    forall q | q in s.procs && q != p
      ensures !SameTask(s'.procs[p].at, s.procs[q].at) && !SameTask(s.procs[q].at, s'.procs[p].at)
    {
      HeldIsInProgress(c, s, q);
    }
  }

  lemma AskFiles(c: Valid, s: System, p: nat)
    requires JobInv(c, s) && Enabled(c, s, Ask(p))
    ensures var s' := Apply(c, s, Ask(p));
            Runs.Inv(s'.master) && FitsConfig(c, s'.master) && FilesOk(c, s'.master, s'.inter, s'.outs)
  {
    hide ProcOk, Request, IsListing, FinalBucket, Expected;
    AskProcOk(c, s, p, p);
    RequestChanges(s.master);
  }

  lemma AskKeeps(c: Valid, s: System, p: nat)
    requires JobInv(c, s) && Enabled(c, s, Ask(p))
    ensures JobInv(c, Apply(c, s, Ask(p)))
  {
    hide ProcOk, FilesOk, Request, Exclusive;
    var s' := Apply(c, s, Ask(p));
    AskFiles(c, s, p);
    AskExclusive(c, s, p);
    forall q | q in s'.procs ensures ProcOk(c, s'.master, s'.inter, s'.outs, s'.procs[q]) {
      AskProcOk(c, s, p, q);
    }
  }

  /** Writing only buckets of `i` disturbs no process that does not hold map task `i`. */
  lemma InterFrame(c: Valid, m: Master, inter: map<(nat, nat), string>, inter': map<(nat, nat), string>,
                   outs: map<nat, seq<OutLine>>, proc: Proc, i: nat)
    requires Runs.Numbered(m) && FitsConfig(c, m)
    requires ProcOk(c, m, inter, outs, proc) && !HoldsMap(proc.at, i)
    requires forall f :: f in inter && f.0 != i ==> f in inter' && inter'[f] == inter[f]
    ensures ProcOk(c, m, inter', outs, proc)
  {
  }

  /** A step of the holder of map task `i` that touches only its buckets. */
  lemma MapStepKeeps(c: Valid, s: System, p: nat, i: nat, inter': map<(nat, nat), string>, at': Activity)
    requires JobInv(c, s) && p in s.procs && HoldsMap(s.procs[p].at, i) && HoldsMap(at', i)
    requires forall f :: f in s.inter && f.0 != i ==> f in inter' && inter'[f] == s.inter[f]
    requires ProcOk(c, s.master, inter', s.outs, s.procs[p].(at := at'))
    ensures JobInv(c, Move(s.(inter := inter'), p, at'))
  {
    var s' := Move(s.(inter := inter'), p, at');
    HeldIsInProgress(c, s, p);
    forall q | q in s'.procs ensures ProcOk(c, s'.master, s'.inter, s'.outs, s'.procs[q]) {
      if q != p {
        assert !SameTask(s.procs[p].at, s.procs[q].at);
        InterFrame(c, s.master, s.inter, inter', s.outs, s.procs[q], i);
      }
    }
    forall k | 0 <= k < s.master.numMap && s.master.mapTasks[k].status.Completed?
      ensures BucketsFinal(c, inter', k)
    {
      assert BucketsFinal(c, s.inter, k);
      assert k != i;
    }
    forall q | q in s.procs && q != p ensures !SameTask(at', s.procs[q].at) {
      assert !SameTask(s.procs[p].at, s.procs[q].at);
      assert !HoldsMap(s.procs[q].at, i);
    }
  }

  lemma TruncateKeeps(c: Valid, s: System, p: nat)
    requires JobInv(c, s) && Enabled(c, s, TruncateBuckets(p))
    ensures JobInv(c, Apply(c, s, TruncateBuckets(p)))
  {
    var i := s.procs[p].at.i;
    assert ProcOk(c, s.master, s.inter, s.outs, s.procs[p]);
    var inter' := s.inter + EmptyBuckets(i, c.numReduce);
    assert InputWords(c, i)[..0] == [];
    assert forall b :: BucketAfter(c, i, 0, b) == "";
    MapStepKeeps(c, s, p, i, inter', MapWriting(i, c.files[i], 0));
  }

  lemma BucketAfterStep(c: Valid, i: nat, k: nat, b: nat)
    requires i < |c.files| && k < |InputWords(c, i)|
    ensures var w := InputWords(c, i)[k];
            BucketAfter(c, i, k + 1, b)
            == BucketAfter(c, i, k, b) + if Bucket(c.sum, w, c.numReduce) == b then FormatLine(w, LineValue(c, i)) else ""
  {
    var words := InputWords(c, i);
    BucketTextStep(c.sum, c.numReduce, words[..k], LineValue(c, i), words[k], b);
    assert words[..k] + [words[k]] == words[..k + 1];
  }

  lemma WriteWordBuckets(c: Valid, inter: map<(nat, nat), string>, i: nat, k: nat, b: nat)
    requires i < |c.files| && k < |InputWords(c, i)| && b < c.numReduce
    requires forall b :: 0 <= b < c.numReduce ==> (i, b) in inter && inter[(i, b)] == BucketAfter(c, i, k, b)
    ensures var w := InputWords(c, i)[k];
            AppendLine(inter, (i, Bucket(c.sum, w, c.numReduce)), w, LineValue(c, i))[(i, b)] == BucketAfter(c, i, k + 1, b)
  {
    BucketAfterStep(c, i, k, b);
  }

  lemma WriteWordKeeps(c: Valid, s: System, p: nat)
    requires JobInv(c, s) && Enabled(c, s, WriteNextWord(p))
    ensures JobInv(c, Apply(c, s, WriteNextWord(p)))
  {
    var MapWriting(i, file, k) := s.procs[p].at;
    assert ProcOk(c, s.master, s.inter, s.outs, s.procs[p]);
    var w, value := InputWords(c, i)[k], LineValue(c, i);
    var inter' := AppendLine(s.inter, (i, Bucket(c.sum, w, c.numReduce)), w, value);
    forall b | 0 <= b < c.numReduce ensures inter'[(i, b)] == BucketAfter(c, i, k + 1, b) {
      WriteWordBuckets(c, s.inter, i, k, b);
    }
    MapStepKeeps(c, s, p, i, inter', MapWriting(i, file, k + 1));
  }

  lemma FinishMapKeeps(c: Valid, s: System, p: nat)
    requires JobInv(c, s) && Enabled(c, s, FinishMap(p))
    ensures JobInv(c, Apply(c, s, FinishMap(p)))
  {
    var MapWriting(i, file, k) := s.procs[p].at;
    assert ProcOk(c, s.master, s.inter, s.outs, s.procs[p]);
    assert InputWords(c, i)[..k] == InputWords(c, i);
    MapStepKeeps(c, s, p, i, s.inter, MapWritten(i));
  }

  /** A step of the holder of reduce task `r` that touches only its output. */
  lemma ReduceStepKeeps(c: Valid, s: System, p: nat, r: nat, outs': map<nat, seq<OutLine>>, at': Activity)
    requires JobInv(c, s) && p in s.procs && HoldsReduce(s.procs[p].at, r) && HoldsReduce(at', r)
    requires forall q :: q in s.outs && q != r ==> q in outs' && outs'[q] == s.outs[q]
    requires ProcOk(c, s.master, s.inter, outs', s.procs[p].(at := at'))
    ensures JobInv(c, Move(s.(outs := outs'), p, at'))
  {
    var s' := Move(s.(outs := outs'), p, at');
    HeldIsInProgress(c, s, p);
    forall q | q in s'.procs ensures ProcOk(c, s'.master, s'.inter, s'.outs, s'.procs[q]) {
      if q != p {
        assert !SameTask(s.procs[p].at, s.procs[q].at);
        assert !HoldsReduce(s.procs[q].at, r);
      }
    }
    forall q | q in s.procs && q != p ensures !SameTask(at', s.procs[q].at) {
      assert !SameTask(s.procs[p].at, s.procs[q].at);
      assert !HoldsReduce(s.procs[q].at, r);
    }
  }

  /** A reducer finds every bucket written: the barrier has made them final. */
  lemma BucketIsFinal(c: Valid, s: System, r: nat, j: nat)
    requires JobInv(c, s) && r < s.master.numReduce && s.master.reduceTasks[r].status.InProgress? && j < |c.files|
    ensures (j, r) in s.inter && s.inter[(j, r)] == FinalBucket(c, j, r)
  {
  }

  lemma ReadBucketResult(c: Valid, s: System, p: nat)
    requires JobInv(c, s) && Enabled(c, s, ReadBucket(p))
    ensures var at := s.procs[p].at;
            && at.j < |c.files|
            && Apply(c, s, ReadBucket(p)) == Move(s, p, ReduceReading(at.r, at.j + 1, Expected(c, at.r, at.j + 1)))
  {
    hide ParseFile, FinalBucket, Absorb;
    var ReduceReading(r, j, acc) := s.procs[p].at;
    assert ProcOk(c, s.master, s.inter, s.outs, s.procs[p]);
    BucketIsFinal(c, s, r, j);
  }

  lemma ReadBucketKeeps(c: Valid, s: System, p: nat)
    requires JobInv(c, s) && Enabled(c, s, ReadBucket(p))
    ensures JobInv(c, Apply(c, s, ReadBucket(p)))
  {
    hide ParseFile, FinalBucket, Absorb;
    var ReduceReading(r, j, acc) := s.procs[p].at;
    assert ProcOk(c, s.master, s.inter, s.outs, s.procs[p]);
    ReadBucketResult(c, s, p);
    ReduceStepKeeps(c, s, p, r, s.outs, ReduceReading(r, j + 1, Expected(c, r, j + 1)));
  }

  lemma WriteOutputKeeps(c: Valid, s: System, p: nat, lines: seq<OutLine>)
    requires JobInv(c, s) && Enabled(c, s, WriteOutput(p, lines))
    ensures JobInv(c, Apply(c, s, WriteOutput(p, lines)))
  {
    var ReduceReading(r, j, acc) := s.procs[p].at;
    assert ProcOk(c, s.master, s.inter, s.outs, s.procs[p]);
    ReduceStepKeeps(c, s, p, r, s.outs[r := lines], ReduceWritten(r));
  }

  lemma CompleteAt(tasks: seq<Task>, id: nat)
    requires forall k :: 0 <= k < |tasks| ==> tasks[k].id == k
    ensures Complete(tasks, id) == if id < |tasks| then SetStatus(tasks, id, Completed) else tasks
  {
  }

  /** A map report arrives in the map phase; a reduce report arrives in the reduce phase, or in a
      map phase reopened by a registration, where it changes no status. */
  lemma ReportChanges(c: Valid, s: System, p: nat)
    requires JobInv(c, s) && Enabled(c, s, SendReport(p))
    ensures var at, m := s.procs[p].at, s.master;
            var m' := Report(m, ReportedId(at));
            if at.MapWritten? then
              m.phase.Mapping? && m' == m.(mapTasks := SetStatus(m.mapTasks, at.i, Completed))
            else if m.phase.Reducing? then
              m' == m.(reduceTasks := SetStatus(m.reduceTasks, at.r, Completed))
            else
              m.phase.Mapping? && m' == m
  {
    hide IsListing, FinalBucket, Expected, BucketAfter, InputWords, Exclusive;
    var at, m := s.procs[p].at, s.master;
    assert ProcOk(c, m, s.inter, s.outs, s.procs[p]);
    if at.MapWritten? {
      assert !AllCompleted(m.mapTasks) by { assert !m.mapTasks[at.i].status.Completed?; }
      CompleteAt(m.mapTasks, at.i);
    } else {
      assert !AllCompleted(m.reduceTasks) by { assert !m.reduceTasks[at.r].status.Completed?; }
      assert !Runs.NoneStarted(m.reduceTasks) by { assert !m.reduceTasks[at.r].status.Idle?; }
      CompleteAt(m.reduceTasks, at.r);
      CompleteAt(m.mapTasks, at.r);
      if at.r < |m.mapTasks| {
        assert m.mapTasks[at.r].status.Completed?;
      }
    }
  }

  /** A process that holds nothing claims nothing. */
  lemma IdleProcOk(c: Valid, m: Master, m': Master, inter: map<(nat, nat), string>, outs: map<nat, seq<OutLine>>,
                   proc: Proc, at: Activity)
    requires Runs.Numbered(m) && FitsConfig(c, m) && Runs.Numbered(m') && FitsConfig(c, m')
    requires ProcOk(c, m, inter, outs, proc) && (at.Stopped? || (at.Ready? && !proc.detached))
    ensures ProcOk(c, m', inter, outs, proc.(at := at))
  {
  }

  lemma ReportProcOk(c: Valid, s: System, p: nat, q: nat)
    requires JobInv(c, s) && Enabled(c, s, SendReport(p)) && q in s.procs
    ensures var s' := Apply(c, s, SendReport(p));
            Runs.Inv(s'.master) && FitsConfig(c, s'.master) && ProcOk(c, s'.master, s'.inter, s'.outs, s'.procs[q])
  {
    hide IsListing, FinalBucket, Expected, BucketAfter, InputWords, ProcOk, FilesOk;
    var at, m := s.procs[p].at, s.master;
    var m' := Report(m, ReportedId(at));
    Runs.HandleKeeps(m, Runs.ReportCall(ReportedId(at)));
    ReportChanges(c, s, p);
    if q != p {
      assert !SameTask(at, s.procs[q].at);
      assert if at.MapWritten? then HoldsMap(at, at.i) else HoldsReduce(at, at.r);
      ProcOkFrame(c, m, m', s.inter, s.outs, s.procs[q]);
    } else {
      IdleProcOk(c, m, m', s.inter, s.outs, s.procs[p], AfterReport(s.procs[p]));
    }
  }

  /** The task it completes has its files in place. */
  lemma ReportFilesOk(c: Valid, s: System, p: nat)
    requires JobInv(c, s) && Enabled(c, s, SendReport(p))
    ensures var s' := Apply(c, s, SendReport(p));
            Runs.Inv(s'.master) && FitsConfig(c, s'.master) && FilesOk(c, s'.master, s'.inter, s'.outs)
  {
    hide IsListing, FinalBucket, Expected, BucketAfter, InputWords;
    ReportProcOk(c, s, p, p);
    ReportChanges(c, s, p);
    assert ProcOk(c, s.master, s.inter, s.outs, s.procs[p]);
  }

  lemma ReportKeeps(c: Valid, s: System, p: nat)
    requires JobInv(c, s) && Enabled(c, s, SendReport(p))
    ensures JobInv(c, Apply(c, s, SendReport(p)))
  {
    hide FilesOk, ProcOk, Runs.Barrier, Runs.PhaseFits, Report;
    var s' := Apply(c, s, SendReport(p));
    ReportFilesOk(c, s, p);
    forall q | q in s'.procs ensures ProcOk(c, s'.master, s'.inter, s'.outs, s'.procs[q]) {
      ReportProcOk(c, s, p, q);
    }
  }

  lemma LeaveKeeps(c: Valid, s: System, p: nat, at: Activity)
    requires JobInv(c, s) && p in s.procs && (at.Stopped? || (at.Ready? && !s.procs[p].detached))
    ensures JobInv(c, Move(s, p, at))
  {
    hide ProcOk, FilesOk;
    IdleProcOk(c, s.master, s.master, s.inter, s.outs, s.procs[p], at);
  }

  lemma DetachOk(c: Valid, m: Master, inter: map<(nat, nat), string>, outs: map<nat, seq<OutLine>>, proc: Proc)
    requires Runs.Numbered(m) && FitsConfig(c, m) && ProcOk(c, m, inter, outs, proc)
    requires proc.at.MapWritten? || proc.at.ReduceWritten?
    ensures ProcOk(c, m, inter, outs, proc.(detached := true))
  {
  }

  lemma DelayKeeps(c: Valid, s: System, p: nat, q: nat)
    requires JobInv(c, s) && Enabled(c, s, DelayReport(p, q))
    ensures JobInv(c, Apply(c, s, DelayReport(p, q)))
  {
    hide ProcOk, FilesOk;
    DetachOk(c, s.master, s.inter, s.outs, s.procs[p]);
    IdleProcOk(c, s.master, s.master, s.inter, s.outs, s.procs[p], Ready);
  }

  lemma StepKeeps(c: Valid, s: System, step: Step)
    requires JobInv(c, s) && Enabled(c, s, step)
    ensures JobInv(c, Apply(c, s, step))
  {
    match step
    case Spawn(p, id) => SpawnKeeps(c, s, p, id);
    case Ask(p) => AskKeeps(c, s, p);
    case TruncateBuckets(p) => TruncateKeeps(c, s, p);
    case WriteNextWord(p) => WriteWordKeeps(c, s, p);
    case FinishMap(p) => FinishMapKeeps(c, s, p);
    case ReadBucket(p) => ReadBucketKeeps(c, s, p);
    case WriteOutput(p, lines) => WriteOutputKeeps(c, s, p, lines);
    case SendReport(p) => ReportKeeps(c, s, p);
    case LoseReport(p) => LeaveKeeps(c, s, p, AfterReport(s.procs[p]));
    case DelayReport(p, q) => DelayKeeps(c, s, p, q);
    case Crash(p) => LeaveKeeps(c, s, p, Stopped);
  }

  lemma {:induction false} RunKeeps(c: Valid, s: System, steps: seq<Step>)
    requires JobInv(c, s) && IsRun(c, s, steps)
    ensures JobInv(c, After(c, s, steps))
    decreases steps
  {
    if steps != [] {
      StepKeeps(c, s, steps[0]);
      RunKeeps(c, Apply(c, s, steps[0]), steps[1..]);
    }
  }

  /** A run can be extended by any enabled step. */
  lemma {:induction false} RunExtend(c: Valid, s: System, steps: seq<Step>, step: Step)
    requires IsRun(c, s, steps) && Enabled(c, After(c, s, steps), step)
    ensures IsRun(c, s, steps + [step]) && After(c, s, steps + [step]) == Apply(c, After(c, s, steps), step)
    decreases steps
  {
    hide Apply, Enabled;
    if steps == [] {
      assert steps + [step] == [step] && [step][1..] == [];
    } else {
      var s1 := Apply(c, s, steps[0]);
      RunExtend(c, s1, steps[1..], step);
      assert (steps + [step])[0] == steps[0] && (steps + [step])[1..] == steps[1..] + [step];
    }
  }
}
