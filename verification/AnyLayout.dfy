/** The two-pass analysis that decides which tensors between partitions may
    take the layout their producer prefers. */
module AnyLayout {

  /** A port of a partition: a tensor identifier and its data type. */
  datatype Port = Port(id: nat, dataType: nat)

  datatype Partition = Partition(supported: bool, ins: seq<Port>, outs: seq<Port>)

  predicate HasId(ports: seq<Port>, id: nat) {
    exists k :: 0 <= k < |ports| && ports[k].id == id
  }

  predicate Produces(p: Partition, id: nat) {
    p.supported && HasId(p.outs, id)
  }

  predicate Consumes(p: Partition, id: nat) {
    HasId(p.ins, id)
  }

  // What the analysis computes

  ghost predicate Produced(ps: seq<Partition>, id: nat) {
    exists i :: 0 <= i < |ps| && Produces(ps[i], id)
  }

  ghost predicate ConsumedBySupported(ps: seq<Partition>, id: nat) {
    exists i :: 0 <= i < |ps| && ps[i].supported && Consumes(ps[i], id)
  }

  /** Partition j consumes id at or after a supported producer of it. */
  ghost predicate SeenUse(ps: seq<Partition>, id: nat, j: int)
    requires 0 <= j < |ps|
  {
    Consumes(ps[j], id) && exists i :: 0 <= i <= j && Produces(ps[i], id)
  }

  ghost predicate SeenUsesSupported(ps: seq<Partition>, id: nat) {
    forall j | 0 <= j < |ps| && SeenUse(ps, id, j) :: ps[j].supported
  }

  ghost predicate Chosen(ps: seq<Partition>, id: nat) {
    Produced(ps, id) && ConsumedBySupported(ps, id) && SeenUsesSupported(ps, id)
  }

  // What the analysis promises

  ghost predicate AllUsesSupported(ps: seq<Partition>, id: nat) {
    forall j | 0 <= j < |ps| && Consumes(ps[j], id) :: ps[j].supported
  }

  ghost predicate Promised(ps: seq<Partition>, id: nat) {
    Produced(ps, id) && ConsumedBySupported(ps, id) && AllUsesSupported(ps, id)
  }

  predicate AllTrue(flags: seq<bool>) {
    forall k | 0 <= k < |flags| :: flags[k]
  }

  /** The flags collected from the first partitions describe the uses seen. */
  ghost predicate Describes(flags: map<nat, seq<bool>>, ps: seq<Partition>) {
    && (forall id :: id in flags <==> Produced(ps, id))
    && (forall id | id in flags :: AllTrue(flags[id]) <==> SeenUsesSupported(ps, id))
  }

  /** Enters the outputs of a supported partition. */
  method AddOutputs(p: Partition, before: map<nat, seq<bool>>) returns (flags: map<nat, seq<bool>>)
    ensures forall id :: id in flags <==> id in before || Produces(p, id)
    ensures forall id | id in flags :: flags[id] == if id in before then before[id] else []
  {
    flags := before;
    for k := 0 to |p.outs|
      invariant forall id :: id in flags <==> id in before || (p.supported && HasId(p.outs[..k], id))
      invariant forall id | id in flags :: flags[id] == if id in before then before[id] else []
    {
      var id := p.outs[k].id;
      HasIdStep(p.outs, k);
      if p.supported && id !in flags {
        flags := flags[id := []];
      }
    }
    assert p.outs[..|p.outs|] == p.outs;
  }

  /** Records the uses by a partition of the tensors entered so far. */
  method AddUses(p: Partition, before: map<nat, seq<bool>>) returns (flags: map<nat, seq<bool>>)
    ensures flags.Keys == before.Keys
    ensures forall id | id in flags ::
              AllTrue(flags[id]) <==> AllTrue(before[id]) && (Consumes(p, id) ==> p.supported)
  {
    flags := before;
    for k := 0 to |p.ins|
      invariant flags.Keys == before.Keys
      invariant forall id | id in flags ::
                  AllTrue(flags[id]) <==> AllTrue(before[id]) && (HasId(p.ins[..k], id) ==> p.supported)
    {
      var id := p.ins[k].id;
      HasIdStep(p.ins, k);
      if id in flags {
        AllTrueStep(flags[id], p.supported);
        flags := flags[id := flags[id] + [p.supported]];
      }
    }
    assert p.ins[..|p.ins|] == p.ins;
  }

  /** Collects, for every tensor a supported partition produces, whether each of
      its uses from then on is by a supported partition. */
  method CollectFlags(ps: seq<Partition>) returns (flags: map<nat, seq<bool>>)
    ensures Describes(flags, ps)
  {
    flags := map[];
    for n := 0 to |ps|
      invariant Describes(flags, ps[..n])
    {
      ghost var before := flags;
      flags := AddOutputs(ps[n], flags);
      flags := AddUses(ps[n], flags);
      assert ps[..n + 1] == ps[..n] + [ps[n]];
      DescribesStep(ps[..n], ps[n], before, flags);
    }
    assert ps[..|ps|] == ps;
  }

  lemma HasIdStep(ports: seq<Port>, k: nat)
    requires k < |ports|
    ensures forall id :: HasId(ports[..k + 1], id) <==> HasId(ports[..k], id) || id == ports[k].id
  {
    forall id
      ensures HasId(ports[..k + 1], id) <==> HasId(ports[..k], id) || id == ports[k].id
    {
      var s, s' := ports[..k], ports[..k + 1];
      if j :| 0 <= j < |s| && s[j].id == id {
        assert s'[j].id == id;
      }
      if j :| 0 <= j < |s'| && s'[j].id == id {
        assert j < k ==> s[j].id == id;
      }
      assert s'[k] == ports[k];
    }
  }

  lemma AllTrueStep(flags: seq<bool>, b: bool)
    ensures AllTrue(flags + [b]) <==> AllTrue(flags) && b
  {
    if AllTrue(flags + [b]) {
      assert (flags + [b])[|flags|] == b;
      forall k | 0 <= k < |flags|
        ensures flags[k]
      {
        assert (flags + [b])[k] == flags[k];
      }
    }
  }

  lemma DescribesStep(ps: seq<Partition>, p: Partition, before: map<nat, seq<bool>>, flags: map<nat, seq<bool>>)
    requires Describes(before, ps)
    requires forall id :: id in flags <==> id in before || Produces(p, id)
    requires forall id | id in flags ::
               AllTrue(flags[id]) <==> (id in before ==> AllTrue(before[id])) && (Consumes(p, id) ==> p.supported)
    ensures Describes(flags, ps + [p])
  {
    var ps' := ps + [p];
    forall id
      ensures Produced(ps', id) <==> Produced(ps, id) || Produces(p, id)
      ensures Produced(ps', id) ==>
                (SeenUsesSupported(ps', id) <==> SeenUsesSupported(ps, id) && (Consumes(p, id) ==> p.supported))
      ensures !Produced(ps, id) ==> SeenUsesSupported(ps, id)
    {
      SeenStep(ps, p, id);
    }
  }

  lemma SeenStep(ps: seq<Partition>, p: Partition, id: nat)
    ensures Produced(ps + [p], id) <==> Produced(ps, id) || Produces(p, id)
    ensures Produced(ps + [p], id) ==>
              (SeenUsesSupported(ps + [p], id) <==> SeenUsesSupported(ps, id) && (Consumes(p, id) ==> p.supported))
    ensures !Produced(ps, id) ==> SeenUsesSupported(ps, id)
  {
    var ps', n := ps + [p], |ps|;
    assert ps'[n] == p && forall i | 0 <= i < n :: ps'[i] == ps[i];
    forall j | 0 <= j < n
      ensures SeenUse(ps', id, j) <==> SeenUse(ps, id, j)
    {
    }
    if Produced(ps', id) {
      assert SeenUse(ps', id, n) <==> Consumes(p, id);
    }
  }

  /** Records the tensors whose uses are all supported, among the inputs of
      supported partitions. */
  method SetAnyLayout(ps: seq<Partition>, initial: set<nat>) returns (ids: set<nat>)
    ensures forall id :: id in ids <==> id in initial || Chosen(ps, id)
    ensures ProducersFirst(ps) ==> forall id :: id in ids <==> id in initial || Promised(ps, id)
    ensures forall id | id !in initial && Produced(ps, id) && ConsumedBySupported(ps, id) ::
              (id in ids <==> AllUsesSupported(ps, id)) <==> UnsupportedUseIsSeen(ps, id)
  {
    var flags := CollectFlags(ps);
    ids := initial;
    for n := 0 to |ps|
      invariant forall id :: id in ids <==>
                  id in initial || (id in flags && AllTrue(flags[id]) && ConsumedBySupported(ps[..n], id))
    {
      var p := ps[n];
      ConsumedStep(ps, n);
      if p.supported {
        ghost var before := ids;
        for k := 0 to |p.ins|
          invariant forall id :: id in ids <==>
                      id in before || (id in flags && AllTrue(flags[id]) && HasId(p.ins[..k], id))
        {
          var id := p.ins[k].id;
          HasIdStep(p.ins, k);
          if id in flags && AllTrue(flags[id]) {
            ids := ids + {id};
          }
        }
        assert p.ins[..|p.ins|] == p.ins;
      }
    }
    assert ps[..|ps|] == ps;
    forall id
      ensures ProducersFirst(ps) ==> (Chosen(ps, id) <==> Promised(ps, id))
      ensures Produced(ps, id) && ConsumedBySupported(ps, id) ==>
                ((Chosen(ps, id) <==> Promised(ps, id)) <==> UnsupportedUseIsSeen(ps, id))
    {
      if ProducersFirst(ps) {
        PromiseKept(ps, id);
      }
      if Produced(ps, id) && ConsumedBySupported(ps, id) {
        PromiseKeptIff(ps, id);
      }
    }
  }

  lemma ConsumedStep(ps: seq<Partition>, n: nat)
    requires n < |ps|
    ensures forall id :: ConsumedBySupported(ps[..n + 1], id)
                         <==> ConsumedBySupported(ps[..n], id) || (ps[n].supported && Consumes(ps[n], id))
  {
    forall id
      ensures ConsumedBySupported(ps[..n + 1], id)
              <==> ConsumedBySupported(ps[..n], id) || (ps[n].supported && Consumes(ps[n], id))
    {
      assert ps[..n + 1] == ps[..n] + [ps[n]];
      assert ps[..n + 1][n] == ps[n] && forall i | 0 <= i < n :: ps[..n + 1][i] == ps[..n][i];
    }
  }

  // The promise

  /** Every supported producer is listed no later than the consumers. */
  ghost predicate ProducersFirst(ps: seq<Partition>) {
    forall id, i, j | 0 <= i < |ps| && 0 <= j < |ps| && Produces(ps[i], id) && Consumes(ps[j], id) :: i <= j
  }

  /** Some unsupported use is seen whenever there is one. */
  ghost predicate UnsupportedUseIsSeen(ps: seq<Partition>, id: nat) {
    (exists j :: 0 <= j < |ps| && Consumes(ps[j], id) && !ps[j].supported) ==>
      exists j :: 0 <= j < |ps| && SeenUse(ps, id, j) && !ps[j].supported
  }

  /** The analysis keeps its promise about a tensor that supported partitions
      produce and consume if and only if an unsupported use of it, when there is
      one, is listed at or after a supported producer. */
  lemma PromiseKeptIff(ps: seq<Partition>, id: nat)
    requires Produced(ps, id) && ConsumedBySupported(ps, id)
    ensures (Chosen(ps, id) <==> Promised(ps, id)) <==> UnsupportedUseIsSeen(ps, id)
  {
    if Promised(ps, id) {
      assert Chosen(ps, id);
    }
    if !SeenUsesSupported(ps, id) {
      var j :| 0 <= j < |ps| && SeenUse(ps, id, j) && !ps[j].supported;
      assert !AllUsesSupported(ps, id);
    }
  }

  /** With producers listed first, a tensor is chosen exactly when a supported
      partition produces it, one consumes it, and all its consumers are supported. */
  lemma PromiseKept(ps: seq<Partition>, id: nat)
    requires ProducersFirst(ps)
    ensures Chosen(ps, id) <==> Promised(ps, id)
  {
    if Produced(ps, id) && ConsumedBySupported(ps, id) {
      forall j | 0 <= j < |ps| && Consumes(ps[j], id)
        ensures SeenUse(ps, id, j)
      {
        var i :| 0 <= i < |ps| && Produces(ps[i], id);
      }
      PromiseKeptIff(ps, id);
    }
  }

  /** An unsupported consumer listed before the producer is missed: the tensor
      is given the layout its producer prefers although it has an unsupported use. */
  lemma PromiseFailsOutOfOrder(id: nat, dt: nat) returns (ps: seq<Partition>)
    ensures Chosen(ps, id) && !Promised(ps, id)
    ensures ps == [Partition(false, [Port(id, dt)], []), Partition(true, [], [Port(id, dt)]),
                   Partition(true, [Port(id, dt)], [])]
  {
    var x := Port(id, dt);
    ps := [Partition(false, [x], []), Partition(true, [], [x]), Partition(true, [x], [])];
    assert ps[0].ins[0].id == id && Consumes(ps[0], id);
    assert ps[1].outs[0].id == id && Produces(ps[1], id);
    assert ps[2].ins[0].id == id && Consumes(ps[2], id);
    assert !SeenUse(ps, id, 0);
  }
}
