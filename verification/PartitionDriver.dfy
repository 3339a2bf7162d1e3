/** The loop that compiles and executes the partitions of a graph, with its two
    caches of what earlier partitions produced. */
module PartitionDriver {
  import opened Common
  import opened AnyLayout

  datatype Layout = Strided | Any | Chosen(description: nat)

  datatype Shape = Known(dims: seq<nat>) | Unknown

  datatype LogicalTensor = LogicalTensor(id: nat, dataType: nat, shape: Shape, layout: Layout)

  /** A tensor bound to memory: the position of its buffer among all allocated. */
  datatype Bound = Bound(tensor: LogicalTensor, buffer: nat)

  /** Partition part executed on these bindings. */
  datatype Execution = Execution(part: nat, ins: seq<Bound>, outs: seq<Bound>)

  /** What the user and the library supply: the shapes of graph inputs, the
      tensors with layout any, and the logical tensor a compiled partition
      reports for an output. */
  datatype Setup = Setup(shapes: map<nat, seq<nat>>, any: set<nat>,
                         query: (nat, seq<LogicalTensor>, seq<LogicalTensor>, LogicalTensor) -> LogicalTensor)

  ghost predicate Valid(c: Setup) {
    forall i, ins, outs, t :: c.query(i, ins, outs, t).id == t.id
  }

  /** The caches, the number of buffers and the executions so far. */
  datatype Driver = Driver(queried: map<nat, LogicalTensor>, tensors: map<nat, Bound>, buffers: nat, log: seq<Execution>)

  const START := Driver(map[], map[], 0, [])

  // One partition

  /** A produced tensor as its producer reported it; otherwise a strided graph input. */
  function InputTensor(c: Setup, queried: map<nat, LogicalTensor>, port: Port): LogicalTensor {
    if port.id in queried then queried[port.id]
    else LogicalTensor(port.id, port.dataType, Known(if port.id in c.shapes then c.shapes[port.id] else []), Strided)
  }

  function OutputTensor(c: Setup, port: Port): LogicalTensor {
    LogicalTensor(port.id, port.dataType, Unknown, if port.id in c.any then Any else Strided)
  }

  function InputTensors(c: Setup, queried: map<nat, LogicalTensor>, ports: seq<Port>): seq<LogicalTensor> {
    seq(|ports|, k requires 0 <= k < |ports| => InputTensor(c, queried, ports[k]))
  }

  function OutputTensors(c: Setup, ports: seq<Port>): seq<LogicalTensor> {
    seq(|ports|, k requires 0 <= k < |ports| => OutputTensor(c, ports[k]))
  }

  function QueriedTensors(c: Setup, i: nat, ins: seq<LogicalTensor>, outs: seq<LogicalTensor>): seq<LogicalTensor> {
    seq(|outs|, k requires 0 <= k < |outs| => c.query(i, ins, outs, outs[k]))
  }

  function CacheAll(queried: map<nat, LogicalTensor>, ts: seq<LogicalTensor>): map<nat, LogicalTensor> {
    if ts == [] then queried
    else CacheAll(queried, ts[..|ts| - 1])[ts[|ts| - 1].id := ts[|ts| - 1]]
  }

  /** The inputs that no earlier partition produced, each of which gets a new buffer. */
  function NewInputs(ts: seq<LogicalTensor>, tensors: map<nat, Bound>): nat {
    if ts == [] then 0
    else NewInputs(ts[..|ts| - 1], tensors) + (if ts[|ts| - 1].id in tensors then 0 else 1)
  }

  function BindInput(ts: seq<LogicalTensor>, tensors: map<nat, Bound>, buffers: nat, k: nat): Bound
    requires k < |ts|
  {
    if ts[k].id in tensors then tensors[ts[k].id] else Bound(ts[k], buffers + NewInputs(ts[..k], tensors))
  }

  function BindInputs(ts: seq<LogicalTensor>, tensors: map<nat, Bound>, buffers: nat): seq<Bound> {
    seq(|ts|, k requires 0 <= k < |ts| => BindInput(ts, tensors, buffers, k))
  }

  function BindOutputs(ts: seq<LogicalTensor>, buffers: nat): seq<Bound> {
    seq(|ts|, k requires 0 <= k < |ts| => Bound(ts[k], buffers + k))
  }

  function RecordAll(tensors: map<nat, Bound>, bs: seq<Bound>): map<nat, Bound> {
    if bs == [] then tensors
    else RecordAll(tensors, bs[..|bs| - 1])[bs[|bs| - 1].tensor.id := bs[|bs| - 1]]
  }

  /** The state after partition i. */
  function Process(c: Setup, ps: seq<Partition>, i: nat, s: Driver): Driver
    requires i < |ps|
  {
    if !ps[i].supported then s
    else
      var ins := InputTensors(c, s.queried, ps[i].ins);
      var outs := QueriedTensors(c, i, ins, OutputTensors(c, ps[i].outs));
      var boundIns := BindInputs(ins, s.tensors, s.buffers);
      var boundOuts := BindOutputs(outs, s.buffers + NewInputs(ins, s.tensors));
      Driver(CacheAll(s.queried, outs), RecordAll(s.tensors, boundOuts),
             s.buffers + NewInputs(ins, s.tensors) + |outs|, s.log + [Execution(i, boundIns, boundOuts)])
  }

  /** The state after the first n partitions. */
  function After(c: Setup, ps: seq<Partition>, n: nat): Driver
    requires n <= |ps|
  {
    if n == 0 then START else Process(c, ps, n - 1, After(c, ps, n - 1))
  }

  // The code

  lemma NothingBound(ts: seq<LogicalTensor>, tensors: map<nat, Bound>)
    ensures NewInputs(ts[..0], tensors) == 0 && RecordAll(tensors, []) == tensors
  {
  }

  lemma NewInputsStep(ts: seq<LogicalTensor>, tensors: map<nat, Bound>, k: nat)
    requires k < |ts|
    ensures NewInputs(ts[..k + 1], tensors) == NewInputs(ts[..k], tensors) + (if ts[k].id in tensors then 0 else 1)
  {
    assert ts[..k + 1][..k] == ts[..k];
  }

  lemma RecordStep(tensors: map<nat, Bound>, bs: seq<Bound>, b: Bound)
    ensures RecordAll(tensors, bs + [b]) == RecordAll(tensors, bs)[b.tensor.id := b]
  {
    assert (bs + [b])[..|bs|] == bs;
  }

  /** Binds logical tensors to memory.  An input that an earlier partition
      produced takes that partition's tensor; everything else gets a new buffer,
      and outputs are recorded. */
  method AllocateGraphMem(ts: seq<LogicalTensor>, buffers0: nat, tensors0: map<nat, Bound>, isInput: bool)
    returns (bound: seq<Bound>, buffers: nat, tensors: map<nat, Bound>)
    ensures bound == if isInput then BindInputs(ts, tensors0, buffers0) else BindOutputs(ts, buffers0)
    ensures tensors == if isInput then tensors0 else RecordAll(tensors0, bound)
    ensures buffers == buffers0 + (if isInput then NewInputs(ts, tensors0) else |ts|)
  {
    hide NewInputs, RecordAll;
    bound, buffers, tensors := [], buffers0, tensors0;
    NothingBound(ts, tensors0);
    for k := 0 to |ts|
      invariant |bound| == k
      invariant forall j | 0 <= j < k ::
                  bound[j] == if isInput then BindInput(ts, tensors0, buffers0, j) else Bound(ts[j], buffers0 + j)
      invariant tensors == if isInput then tensors0 else RecordAll(tensors0, bound)
      invariant buffers == buffers0 + (if isInput then NewInputs(ts[..k], tensors0) else k)
    {
      var t := ts[k];
      NewInputsStep(ts, tensors0, k);
      if isInput && t.id in tensors {
        bound := bound + [tensors[t.id]];
      } else {
        var b := Bound(t, buffers);
        buffers := buffers + 1;
        RecordStep(tensors0, bound, b);
        bound := bound + [b];
        if !isInput {
          tensors := tensors[t.id := b];
        }
      }
    }
    assert ts[..|ts|] == ts;
  }

  /** The logical tensors a partition's inputs are compiled with. */
  method CollectInputs(c: Setup, queried: map<nat, LogicalTensor>, ports: seq<Port>) returns (ins: seq<LogicalTensor>)
    ensures ins == InputTensors(c, queried, ports)
  {
    ins := [];
    for k := 0 to |ports|
      invariant |ins| == k && forall j | 0 <= j < k :: ins[j] == InputTensor(c, queried, ports[j])
    {
      ins := ins + [InputTensor(c, queried, ports[k])];
    }
  }

  /** Records what a compiled partition reports for its outputs. */
  method CacheReported(queried0: map<nat, LogicalTensor>, reported: seq<LogicalTensor>)
    returns (queried: map<nat, LogicalTensor>)
    ensures queried == CacheAll(queried0, reported)
  {
    queried := queried0;
    for k := 0 to |reported|
      invariant queried == CacheAll(queried0, reported[..k])
    {
      assert reported[..k + 1][..k] == reported[..k];
      queried := queried[reported[k].id := reported[k]];
    }
    assert reported[..|reported|] == reported;
  }

  /** Compiles and executes the partitions in order. */
  method RunPartitions(c: Setup, ps: seq<Partition>) returns (s: Driver)
    ensures s == After(c, ps, |ps|)
    ensures Valid(c) ==> AllCompiled(c, ps, s.log) && LogIsExact(c, ps, |ps|, s.log)
  {
    hide InputTensors, OutputTensors, QueriedTensors, BindInputs, BindOutputs, CacheAll, RecordAll, NewInputs, LogIsExact, AllCompiled, Valid;
    var queried: map<nat, LogicalTensor>, tensors: map<nat, Bound>, buffers: nat, log: seq<Execution> := map[], map[], 0, [];
    for i := 0 to |ps|
      invariant Driver(queried, tensors, buffers, log) == After(c, ps, i)
    {
      if !ps[i].supported {
        continue;
      }
      var ins := CollectInputs(c, queried, ps[i].ins);
      var reported := QueriedTensors(c, i, ins, OutputTensors(c, ps[i].outs));
      queried := CacheReported(queried, reported);
      var boundIns, boundOuts;
      boundIns, buffers, tensors := AllocateGraphMem(ins, buffers, tensors, true);
      boundOuts, buffers, tensors := AllocateGraphMem(reported, buffers, tensors, false);
      log := log + [Execution(i, boundIns, boundOuts)];
    }
    s := Driver(queried, tensors, buffers, log);
    LogIs(c, ps, |ps|);
    if Valid(c) {
      RunIsCompiled(c, ps);
    }
  }

  // What the caches hold

  ghost predicate HasTensor(ts: seq<LogicalTensor>, id: nat) {
    exists k :: 0 <= k < |ts| && ts[k].id == id
  }

  /** The two caches receive the same tensors: the last of each identifier. */
  lemma {:induction false} CachesReceiveTheSame(queried: map<nat, LogicalTensor>, tensors: map<nat, Bound>,
                                                ts: seq<LogicalTensor>, bs: seq<Bound>, id: nat)
    requires |ts| == |bs| && forall k | 0 <= k < |ts| :: bs[k].tensor == ts[k]
    ensures id in CacheAll(queried, ts) <==> id in queried || HasTensor(ts, id)
    ensures id in RecordAll(tensors, bs) <==> id in tensors || HasTensor(ts, id)
    ensures HasTensor(ts, id) ==>
              exists k :: 0 <= k < |ts| && ts[k].id == id && RecordAll(tensors, bs)[id] == bs[k] && CacheAll(queried, ts)[id] == ts[k]
    ensures !HasTensor(ts, id) ==>
              && (id in queried ==> CacheAll(queried, ts)[id] == queried[id])
              && (id in tensors ==> RecordAll(tensors, bs)[id] == tensors[id])
    decreases |ts|
  {
    if ts != [] {
      var n := |ts| - 1;
      var ts0, bs0 := ts[..n], bs[..n];
      CachesReceiveTheSame(queried, tensors, ts0, bs0, id);
      if ts[n].id != id {
        assert HasTensor(ts, id) <==> HasTensor(ts0, id) by {
          if k :| 0 <= k < |ts| && ts[k].id == id {
            assert ts0[k].id == id;
          }
          if k :| 0 <= k < |ts0| && ts0[k].id == id {
            assert ts[k].id == id;
          }
        }
        if HasTensor(ts0, id) {
          var k :| 0 <= k < |ts0| && ts0[k].id == id && RecordAll(tensors, bs0)[id] == bs0[k]
                   && CacheAll(queried, ts0)[id] == ts0[k];
          assert ts[k].id == id && bs[k] == bs0[k];
        }
      }
    }
  }

  /** The logical tensors partition i is compiled with, and those it reports. */
  function Ins(c: Setup, ps: seq<Partition>, i: nat): seq<LogicalTensor>
    requires i < |ps|
  {
    InputTensors(c, After(c, ps, i).queried, ps[i].ins)
  }

  function Outs(c: Setup, ps: seq<Partition>, i: nat): seq<LogicalTensor>
    requires i < |ps|
  {
    QueriedTensors(c, i, Ins(c, ps, i), OutputTensors(c, ps[i].outs))
  }

  function NewInputCount(c: Setup, ps: seq<Partition>, i: nat): nat
    requires i < |ps|
  {
    NewInputs(Ins(c, ps, i), After(c, ps, i).tensors)
  }

  function BoundIns(c: Setup, ps: seq<Partition>, i: nat): seq<Bound>
    requires i < |ps|
  {
    BindInputs(Ins(c, ps, i), After(c, ps, i).tensors, After(c, ps, i).buffers)
  }

  function BoundOuts(c: Setup, ps: seq<Partition>, i: nat): seq<Bound>
    requires i < |ps|
  {
    BindOutputs(Outs(c, ps, i), After(c, ps, i).buffers + NewInputCount(c, ps, i))
  }

  /** The partitions executed ascend strictly and are exactly the supported ones
      among the first n, each on its own bindings. */
  ghost predicate LogIsExact(c: Setup, ps: seq<Partition>, n: nat, log: seq<Execution>)
    requires n <= |ps|
  {
    && (forall k | 0 <= k < |log| :: log[k].part < n && ps[log[k].part].supported)
    && (forall k | 0 <= k < |log| :: log[k].ins == BoundIns(c, ps, log[k].part) && log[k].outs == BoundOuts(c, ps, log[k].part))
    && (forall k, l | 0 <= k < l < |log| :: log[k].part < log[l].part)
    && (forall i | 0 <= i < n && ps[i].supported :: exists k :: 0 <= k < |log| && log[k].part == i)
  }

  lemma {:induction false} LogStep(c: Setup, ps: seq<Partition>, n: nat)
    requires n < |ps|
    ensures After(c, ps, n + 1).log == After(c, ps, n).log
                                       + (if ps[n].supported then [Execution(n, BoundIns(c, ps, n), BoundOuts(c, ps, n))] else [])
  {
    hide BindInputs, BindOutputs, InputTensors, OutputTensors, QueriedTensors, NewInputs, CacheAll, RecordAll;
  }

  lemma {:induction false} LogGrows(c: Setup, ps: seq<Partition>, n: nat, log: seq<Execution>)
    requires n < |ps| && LogIsExact(c, ps, n, log)
    ensures LogIsExact(c, ps, n + 1, log + (if ps[n].supported then [Execution(n, BoundIns(c, ps, n), BoundOuts(c, ps, n))] else []))
  {
    hide BoundIns, BoundOuts;
    if ps[n].supported {
      var more := log + [Execution(n, BoundIns(c, ps, n), BoundOuts(c, ps, n))];
      assert more[|log|].part == n;
      forall i | 0 <= i < n && ps[i].supported
        ensures exists k :: 0 <= k < |more| && more[k].part == i
      {
        var k :| 0 <= k < |log| && log[k].part == i;
        assert more[k].part == i;
      }
    } else {
      assert log + [] == log;
    }
  }

  lemma NoLog(c: Setup, ps: seq<Partition>)
    ensures LogIsExact(c, ps, 0, After(c, ps, 0).log)
  {
  }

  /** Every supported partition is executed once, in order; no other is. */
  lemma {:induction false} LogIs(c: Setup, ps: seq<Partition>, n: nat)
    requires n <= |ps|
    ensures LogIsExact(c, ps, n, After(c, ps, n).log)
  {
    hide LogIsExact, After, BoundIns, BoundOuts;
    if n == 0 {
      NoLog(c, ps);
    } else {
      LogIs(c, ps, n - 1);
      LogStep(c, ps, n - 1);
      LogGrows(c, ps, n - 1, After(c, ps, n - 1).log);
    }
  }

  lemma OutsHaveIds(c: Setup, ps: seq<Partition>, i: nat, id: nat)
    requires Valid(c) && i < |ps|
    ensures |Outs(c, ps, i)| == |ps[i].outs| && forall k | 0 <= k < |ps[i].outs| :: Outs(c, ps, i)[k].id == ps[i].outs[k].id
    ensures HasTensor(Outs(c, ps, i), id) <==> HasId(ps[i].outs, id)
  {
  }

  lemma ProducedStep(ps: seq<Partition>, n: nat, id: nat)
    requires n < |ps|
    ensures Produced(ps[..n + 1], id) <==> Produced(ps[..n], id) || Produces(ps[n], id)
  {
    assert ps[..n + 1] == ps[..n] + [ps[n]];
    SeenStep(ps[..n], ps[n], id);
  }

  lemma {:induction false} CacheStep(c: Setup, ps: seq<Partition>, n: nat)
    requires n < |ps|
    ensures var s, t := After(c, ps, n), After(c, ps, n + 1);
            && t.queried == (if ps[n].supported then CacheAll(s.queried, Outs(c, ps, n)) else s.queried)
            && t.tensors == (if ps[n].supported then RecordAll(s.tensors, BoundOuts(c, ps, n)) else s.tensors)
    ensures |BoundOuts(c, ps, n)| == |Outs(c, ps, n)| && forall k | 0 <= k < |Outs(c, ps, n)| :: BoundOuts(c, ps, n)[k].tensor == Outs(c, ps, n)[k]
  {
    hide BindInputs, InputTensors, OutputTensors, QueriedTensors, NewInputs, CacheAll, RecordAll;
  }

  /** The caches hold id exactly if it was produced, and agree on it. */
  ghost predicate Agree(s: Driver, produced: bool, id: nat) {
    && (id in s.queried <==> produced) && (id in s.tensors <==> produced)
    && (id in s.tensors ==> s.tensors[id].tensor == s.queried[id] && s.queried[id].id == id)
  }

  /** Both caches hold exactly the outputs of the supported partitions so far,
      and agree on them. */
  lemma {:induction false} CachesAgree(c: Setup, ps: seq<Partition>, n: nat, id: nat)
    requires Valid(c) && n <= |ps|
    ensures Agree(After(c, ps, n), Produced(ps[..n], id), id)
  {
    hide After, CacheAll, RecordAll, Outs, BoundOuts, Produced, Valid;
    if n == 0 {
      NothingCached(c, ps, id);
    } else {
      CachesAgree(c, ps, n - 1, id);
      ProducedStep(ps, n - 1, id);
      CacheStep(c, ps, n - 1);
      OutsHaveIds(c, ps, n - 1, id);
      var s := After(c, ps, n - 1);
      CachesReceiveTheSame(s.queried, s.tensors, Outs(c, ps, n - 1), BoundOuts(c, ps, n - 1), id);
    }
  }

  lemma NothingCached(c: Setup, ps: seq<Partition>, id: nat)
    ensures Agree(After(c, ps, 0), Produced(ps[..0], id), id)
  {
  }

  // What each binding is

  /** Partition j is the last supported partition before i that produces id. */
  ghost predicate LastProducer(ps: seq<Partition>, id: nat, j: nat, i: nat) {
    j < i <= |ps| && Produces(ps[j], id) && forall k | j < k < i :: !Produces(ps[k], id)
  }

  lemma {:induction false} TensorOfLastProducer(c: Setup, ps: seq<Partition>, id: nat, j: nat, n: nat)
    requires Valid(c) && LastProducer(ps, id, j, n)
    ensures id in After(c, ps, n).tensors
    ensures exists b :: 0 <= b < |ps[j].outs| && ps[j].outs[b].id == id && b < |BoundOuts(c, ps, j)|
                        && After(c, ps, n).tensors[id] == BoundOuts(c, ps, j)[b]
    decreases n
  {
    hide CacheAll, RecordAll, InputTensors, QueriedTensors, NewInputs;
    var s := After(c, ps, n - 1);
    OutsHaveIds(c, ps, n - 1, id);
    CachesReceiveTheSame(s.queried, s.tensors, Outs(c, ps, n - 1), BoundOuts(c, ps, n - 1), id);
    if j < n - 1 {
      TensorOfLastProducer(c, ps, id, j, n - 1);
    }
  }

  /** An input that a supported partition produced earlier is bound to the
      tensor and the buffer of its last producer. */
  lemma InputReusesProducer(c: Setup, ps: seq<Partition>, i: nat, a: nat, j: nat)
    requires Valid(c) && i < |ps| && a < |ps[i].ins|
    requires LastProducer(ps, ps[i].ins[a].id, j, i)
    ensures |BoundIns(c, ps, i)| == |ps[i].ins|
    ensures exists b :: 0 <= b < |ps[j].outs| && ps[j].outs[b].id == ps[i].ins[a].id && b < |BoundOuts(c, ps, j)|
                        && BoundIns(c, ps, i)[a] == BoundOuts(c, ps, j)[b]
  {
    var id := ps[i].ins[a].id;
    TensorOfLastProducer(c, ps, id, j, i);
    CachesAgree(c, ps, i, id);
  }

  // What each partition is compiled with

  /** The tensor of a port that no earlier partition produced. */
  ghost predicate IsGraphInput(c: Setup, port: Port, t: LogicalTensor) {
    && t.id == port.id && t.dataType == port.dataType && t.layout == Strided
    && t.shape == Known(if port.id in c.shapes then c.shapes[port.id] else [])
  }

  /** The tensor of an output before the partition is compiled. */
  ghost predicate IsAsked(c: Setup, port: Port, t: LogicalTensor) {
    && t.id == port.id && t.dataType == port.dataType && t.shape == Unknown
    && (port.id in c.any ==> t.layout == Any) && (port.id !in c.any ==> t.layout == Strided)
  }

  function TensorsOf(bs: seq<Bound>): seq<LogicalTensor> {
    seq(|bs|, k requires 0 <= k < |bs| => bs[k].tensor)
  }

  /** What a partition was executed on.  Graph inputs are strided and have the
      user's shapes; the outputs are what the library reports for that partition
      compiled with the very tensors its inputs are bound to and with outputs of
      unknown shape. */
  ghost predicate IsCompiled(c: Setup, ps: seq<Partition>, e: Execution, asked: seq<LogicalTensor>) {
    && e.part < |ps| && |e.ins| == |ps[e.part].ins| && |e.outs| == |asked| == |ps[e.part].outs|
    && (forall a | 0 <= a < |e.ins| && !Produced(ps[..e.part], ps[e.part].ins[a].id) :: IsGraphInput(c, ps[e.part].ins[a], e.ins[a].tensor))
    && (forall b | 0 <= b < |asked| :: IsAsked(c, ps[e.part].outs[b], asked[b]))
    && (forall b | 0 <= b < |asked| :: e.outs[b].tensor == c.query(e.part, TensorsOf(e.ins), asked, asked[b]))
  }

  lemma {:induction false} BoundToCompiled(c: Setup, ps: seq<Partition>, i: nat, a: nat)
    requires Valid(c) && i < |ps| && a < |ps[i].ins|
    ensures |BoundIns(c, ps, i)| == |Ins(c, ps, i)| == |ps[i].ins| && BoundIns(c, ps, i)[a].tensor == Ins(c, ps, i)[a]
    ensures !Produced(ps[..i], ps[i].ins[a].id) ==> IsGraphInput(c, ps[i].ins[a], Ins(c, ps, i)[a])
  {
    hide After, NewInputs, Produced, Valid;
    CachesAgree(c, ps, i, ps[i].ins[a].id);
  }

  lemma {:induction false} ExecutionIsCompiled(c: Setup, ps: seq<Partition>, i: nat)
    requires Valid(c) && i < |ps|
    ensures IsCompiled(c, ps, Execution(i, BoundIns(c, ps, i), BoundOuts(c, ps, i)), OutputTensors(c, ps[i].outs))
  {
    hide After, NewInputs, Produced, Valid, InputTensors, BindInputs, IsGraphInput, BoundIns, Ins, NewInputCount;
    forall a | 0 <= a < |ps[i].ins|
      ensures |BoundIns(c, ps, i)| == |Ins(c, ps, i)| == |ps[i].ins| && BoundIns(c, ps, i)[a].tensor == Ins(c, ps, i)[a]
      ensures !Produced(ps[..i], ps[i].ins[a].id) ==> IsGraphInput(c, ps[i].ins[a], BoundIns(c, ps, i)[a].tensor)
    {
      BoundToCompiled(c, ps, i, a);
    }
    InsHaveLength(c, ps, i);
    assert TensorsOf(BoundIns(c, ps, i)) == Ins(c, ps, i);
  }

  lemma InsHaveLength(c: Setup, ps: seq<Partition>, i: nat)
    requires i < |ps|
    ensures |BoundIns(c, ps, i)| == |Ins(c, ps, i)| == |ps[i].ins|
  {
    hide After, NewInputs;
  }

  ghost predicate WasCompiled(c: Setup, ps: seq<Partition>, e: Execution) {
    exists asked :: IsCompiled(c, ps, e, asked)
  }

  ghost predicate AllCompiled(c: Setup, ps: seq<Partition>, log: seq<Execution>) {
    forall k | 0 <= k < |log| :: WasCompiled(c, ps, log[k])
  }

  /** Every execution of the run is on such tensors. */
  lemma {:induction false} RunIsCompiled(c: Setup, ps: seq<Partition>)
    requires Valid(c)
    ensures AllCompiled(c, ps, After(c, ps, |ps|).log)
  {
    hide After, BoundIns, BoundOuts, IsCompiled, Valid;
    LogIs(c, ps, |ps|);
    var log := After(c, ps, |ps|).log;
    forall k | 0 <= k < |log|
      ensures WasCompiled(c, ps, log[k])
    {
      var i := log[k].part;
      ExecutionIsCompiled(c, ps, i);
      assert log[k] == Execution(i, BoundIns(c, ps, i), BoundOuts(c, ps, i));
    }
  }

  // Buffers

  /** A binding of the run: input or output k of partition i. */
  datatype Binding = Input(i: nat, k: nat) | Output(i: nat, k: nat)

  ghost predicate IsBinding(ps: seq<Partition>, x: Binding) {
    && x.i < |ps| && ps[x.i].supported
    && x.k < (if x.Input? then |ps[x.i].ins| else |ps[x.i].outs|)
  }

  function BoundTo(c: Setup, ps: seq<Partition>, x: Binding): Bound
    requires x.i < |ps| && x.k < (if x.Input? then |ps[x.i].ins| else |ps[x.i].outs|)
  {
    if x.Input? then BoundIns(c, ps, x.i)[x.k] else BoundOuts(c, ps, x.i)[x.k]
  }

  /** A binding that is not taken from an earlier partition. */
  ghost predicate IsNew(ps: seq<Partition>, x: Binding) {
    && IsBinding(ps, x)
    && (x.Input? ==> !Produced(ps[..x.i], ps[x.i].ins[x.k].id))
  }

  lemma {:induction false} NewInputsAscend(ts: seq<LogicalTensor>, tensors: map<nat, Bound>, k: nat, l: nat)
    requires k <= l <= |ts|
    ensures NewInputs(ts[..k], tensors) <= NewInputs(ts[..l], tensors)
    ensures k < l && ts[k].id !in tensors ==> NewInputs(ts[..k], tensors) < NewInputs(ts[..l], tensors)
    decreases l
  {
    if k < l {
      NewInputsAscend(ts, tensors, k, l - 1);
      assert ts[..l][..l - 1] == ts[..l - 1];
    }
  }

  lemma {:induction false} BuffersAscend(c: Setup, ps: seq<Partition>, i: nat, j: nat)
    requires i <= j <= |ps|
    ensures After(c, ps, i).buffers <= After(c, ps, j).buffers
    decreases j
  {
    if i < j {
      BuffersAscend(c, ps, i, j - 1);
    }
  }

  /** Where the buffer of a new binding lies. */
  lemma NewBuffer(c: Setup, ps: seq<Partition>, x: Binding)
    requires Valid(c) && IsNew(ps, x)
    ensures var s, n, b := After(c, ps, x.i), NewInputCount(c, ps, x.i), BoundTo(c, ps, x).buffer;
            && After(c, ps, x.i + 1).buffers == s.buffers + n + |ps[x.i].outs|
            && (x.Output? ==> b == s.buffers + n + x.k)
            && (x.Input? ==> b == s.buffers + NewInputs(Ins(c, ps, x.i)[..x.k], s.tensors) < s.buffers + n)
  {
    if x.Input? {
      var ts := Ins(c, ps, x.i);
      CachesAgree(c, ps, x.i, ps[x.i].ins[x.k].id);
      assert ts[x.k].id == ps[x.i].ins[x.k].id;
      NewInputsAscend(ts, After(c, ps, x.i).tensors, x.k, |ts|);
      assert ts[..|ts|] == ts;
    }
  }

  lemma NewBuffersDifferIn(c: Setup, ps: seq<Partition>, x: Binding, y: Binding)
    requires Valid(c) && IsNew(ps, x) && IsNew(ps, y) && x != y && x.i == y.i
    ensures BoundTo(c, ps, x).buffer != BoundTo(c, ps, y).buffer
  {
    NewBuffer(c, ps, x);
    NewBuffer(c, ps, y);
    if x.Input? && y.Input? {
      var ts, tensors := Ins(c, ps, x.i), After(c, ps, x.i).tensors;
      CachesAgree(c, ps, x.i, ps[x.i].ins[x.k].id);
      CachesAgree(c, ps, x.i, ps[x.i].ins[y.k].id);
      assert ts[x.k].id == ps[x.i].ins[x.k].id && ts[y.k].id == ps[x.i].ins[y.k].id;
      if x.k < y.k {
        NewInputsAscend(ts, tensors, x.k, y.k);
      } else {
        NewInputsAscend(ts, tensors, y.k, x.k);
      }
    }
  }

  /** All bindings that are not taken from an earlier partition have pairwise
      different buffers. */
  lemma NewBuffersAreDistinct(c: Setup, ps: seq<Partition>, x: Binding, y: Binding)
    requires Valid(c) && IsNew(ps, x) && IsNew(ps, y) && x != y
    ensures BoundTo(c, ps, x).buffer != BoundTo(c, ps, y).buffer
  {
    hide After, Ins, NewInputs, NewInputCount, Outs, BoundIns, BoundOuts;
    if x.i == y.i {
      NewBuffersDifferIn(c, ps, x, y);
    } else {
      NewBuffer(c, ps, x);
      NewBuffer(c, ps, y);
      if x.i < y.i {
        BuffersAscend(c, ps, x.i + 1, y.i);
      } else {
        BuffersAscend(c, ps, y.i + 1, x.i);
      }
    }
  }

  // Layouts

  function Ids(ports: seq<Port>): seq<nat> {
    seq(|ports|, k requires 0 <= k < |ports| => ports[k].id)
  }

  /** When the tensors with layout any are those the analysis chooses, and
      producers are listed first, an output compiled with layout any is consumed
      by supported partitions only, and every consumer gets the tensor, layout
      and buffer its last producer reported. */
  lemma AnyLayoutStaysInside(c: Setup, ps: seq<Partition>, i: nat, b: nat, j: nat, a: nat)
    requires Valid(c) && ProducersFirst(ps)
    requires forall id :: id in c.any <==> AnyLayout.Chosen(ps, id)
    requires i < |ps| && ps[i].supported && b < |ps[i].outs|
    requires OutputTensor(c, ps[i].outs[b]).layout == Any
    requires j < |ps| && a < |ps[j].ins| && ps[j].ins[a].id == ps[i].outs[b].id
    ensures ps[j].supported
    ensures i < j && LastProducer(ps, ps[i].outs[b].id, i, j) && Distinct(Ids(ps[i].outs)) ==>
              BoundIns(c, ps, j)[a] == BoundOuts(c, ps, i)[b]
  {
    var id := ps[i].outs[b].id;
    PromiseKept(ps, id);
    assert Consumes(ps[j], id);
    if i < j && LastProducer(ps, id, i, j) && Distinct(Ids(ps[i].outs)) {
      assert forall k | 0 <= k < |ps[i].outs| :: Ids(ps[i].outs)[k] == ps[i].outs[k].id;
      InputReusesProducer(c, ps, j, a, i);
    }
  }
}
