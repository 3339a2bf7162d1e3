/** Operation graphs connected through tensor identifiers: runs of a graph in
    any order in which inputs are available, and the independence of the
    result from that order.  What an operation computes is a parameter:
    meaning(kind, inputs, k) is its k-th output. */
module Dataflow {
  import opened Common

  datatype Op<K> = Op(id: nat, kind: K, ins: seq<nat>, outs: seq<nat>)

  type Meaning<!K, !T> = (K, seq<T>, int) -> T

  predicate Disjoint(s: seq<nat>, t: seq<nat>) {
    forall x | x in s :: x !in t
  }

  /** No two operations share an identifier or an output, and no external
      tensor is an output. */
  ghost predicate ValidGraph<K>(ops: seq<Op<K>>, external: set<nat>) {
    && (forall p | p in ops :: Distinct(p.outs))
    && (forall p | p in ops :: forall t | t in p.outs :: t !in external)
    && (forall k, l | 0 <= k < l < |ops| :: ops[k].id != ops[l].id && Disjoint(ops[k].outs, ops[l].outs))
  }

  function Elements(s: seq<nat>): set<nat> {
    set t | t in s
  }

  function Outputs<K>(ops: seq<Op<K>>): set<nat> {
    if ops == [] then {} else Outputs(ops[..|ops| - 1]) + Elements(ops[|ops| - 1].outs)
  }

  predicate Available(ins: seq<nat>, have: set<nat>) {
    forall t | t in ins :: t in have
  }

  /** Starting with the tensors in have, the operations can run one by one. */
  predicate Runnable<K>(ops: seq<Op<K>>, have: set<nat>) {
    ops == [] ||
    var n := |ops| - 1;
    Runnable(ops[..n], have) && Available(ops[n].ins, have + Outputs(ops[..n]))
  }

  ghost predicate SameOps<K(!new)>(order: seq<Op<K>>, ops: seq<Op<K>>) {
    forall p :: p in order <==> p in ops
  }

  predicate DistinctIds<K>(ops: seq<Op<K>>) {
    forall k, l | 0 <= k < l < |ops| :: ops[k].id != ops[l].id
  }

  /** A schedule runs every operation of the graph once, inputs first. */
  ghost predicate Schedule<K(!new)>(order: seq<Op<K>>, ops: seq<Op<K>>, external: set<nat>) {
    && SameOps(order, ops)
    && DistinctIds(order)
    && Runnable(order, external)
  }

  function Lookup<T>(env: map<nat, T>, ids: seq<nat>): seq<T>
    requires Available(ids, env.Keys)
  {
    seq(|ids|, k requires 0 <= k < |ids| => env[ids[k]])
  }

  /** The equation an operation imposes on its tensors. */
  ghost predicate Holds<K, T>(meaning: Meaning<K, T>, p: Op<K>, env: map<nat, T>) {
    && Available(p.ins, env.Keys)
    && Available(p.outs, env.Keys)
    && forall k | 0 <= k < |p.outs| :: env[p.outs[k]] == meaning(p.kind, Lookup(env, p.ins), k)
  }

  /** Every operation's equation holds. */
  ghost predicate Solves<K, T>(meaning: Meaning<K, T>, ops: seq<Op<K>>, env: map<nat, T>) {
    forall p | p in ops :: Holds(meaning, p, env)
  }

  function IndexOf(s: seq<nat>, t: nat): (k: int)
    requires t in s
    ensures 0 <= k < |s| && s[k] == t
  {
    if s[0] == t then 0 else 1 + IndexOf(s[1..], t)
  }

  /** Executing one operation binds its outputs. */
  function Execute<K, T>(meaning: Meaning<K, T>, p: Op<K>, env: map<nat, T>): (env': map<nat, T>)
    requires Available(p.ins, env.Keys)
    ensures env'.Keys == env.Keys + Elements(p.outs)
  {
    var ins := Lookup(env, p.ins);
    map t | t in env.Keys + Elements(p.outs) ::
      if t in p.outs then meaning(p.kind, ins, IndexOf(p.outs, t)) else env[t]
  }

  /** The environment after running the operations in the given order. */
  function Run<K, T>(meaning: Meaning<K, T>, order: seq<Op<K>>, env: map<nat, T>): (env': map<nat, T>)
    requires Runnable(order, env.Keys)
    ensures env'.Keys == env.Keys + Outputs(order)
  {
    if order == [] then env
    else var n := |order| - 1; Execute(meaning, order[n], Run(meaning, order[..n], env))
  }

  lemma ExecuteHolds<K, T>(meaning: Meaning<K, T>, p: Op<K>, env: map<nat, T>)
    requires Available(p.ins, env.Keys) && Distinct(p.outs)
    requires forall t | t in p.outs :: t !in env
    ensures Holds(meaning, p, Execute(meaning, p, env))
  {
    var env' := Execute(meaning, p, env);
    assert Lookup(env', p.ins) == Lookup(env, p.ins);
    forall k | 0 <= k < |p.outs|
      ensures env'[p.outs[k]] == meaning(p.kind, Lookup(env, p.ins), k)
    {
      assert IndexOf(p.outs, p.outs[k]) == k;
    }
  }

  lemma HoldsFrame<K, T>(meaning: Meaning<K, T>, p: Op<K>, env: map<nat, T>, env': map<nat, T>)
    requires Holds(meaning, p, env)
    requires env.Keys <= env'.Keys && forall t | t in env :: env'[t] == env[t]
    ensures Holds(meaning, p, env')
  {
    assert Lookup(env', p.ins) == Lookup(env, p.ins);
  }

  lemma {:induction false} OutputOfSome<K>(ops: seq<Op<K>>, t: nat)
    ensures t in Outputs(ops) <==> exists k :: 0 <= k < |ops| && t in ops[k].outs
  {
    if ops != [] {
      var n := |ops| - 1;
      OutputOfSome(ops[..n], t);
      if k :| 0 <= k < |ops| && t in ops[k].outs {
        assert k < n ==> ops[..n][k] == ops[k];
      }
    }
  }

  lemma FreshOutputs<K>(order: seq<Op<K>>, external: set<nat>)
    requires order != [] && ValidGraph(order, external)
    ensures var n := |order| - 1; forall t | t in order[n].outs :: t !in external + Outputs(order[..n])
  {
    var n := |order| - 1;
    forall t | t in order[n].outs
      ensures t !in Outputs(order[..n])
    {
      OutputOfSome(order[..n], t);
      forall k | 0 <= k < n
        ensures t !in order[..n][k].outs
      {
        assert Disjoint(order[k].outs, order[n].outs);
      }
    }
  }

  lemma ValidPrefix<K>(order: seq<Op<K>>, external: set<nat>)
    requires order != [] && ValidGraph(order, external)
    ensures ValidGraph(order[..|order| - 1], external)
    ensures Distinct(order[|order| - 1].outs)
  {
    assert order[|order| - 1] in order;
  }

  /** Running a valid graph solves all its equations and keeps the external tensors. */
  lemma {:induction false} RunSolves<K, T>(meaning: Meaning<K, T>, order: seq<Op<K>>, env: map<nat, T>)
    requires ValidGraph(order, env.Keys) && Runnable(order, env.Keys)
    ensures Solves(meaning, order, Run(meaning, order, env))
    ensures forall t | t in env :: Run(meaning, order, env)[t] == env[t]
  {
    if order != [] {
      var n := |order| - 1;
      var p, rest := order[n], order[..n];
      ValidPrefix(order, env.Keys);
      RunSolves(meaning, rest, env);
      FreshOutputs(order, env.Keys);
      var env1 := Run(meaning, rest, env);
      ExecuteHolds(meaning, p, env1);
      forall q | q in order
        ensures Holds(meaning, q, Execute(meaning, p, env1))
      {
        if q in rest {
          HoldsFrame(meaning, q, env1, Execute(meaning, p, env1));
        }
      }
    }
  }

  /** Two environments that solve a runnable graph and agree on what it starts
      from agree on everything it computes. */
  lemma {:induction false} SolutionIsUnique<K, T>(meaning: Meaning<K, T>, order: seq<Op<K>>, have: set<nat>,
                                                  env: map<nat, T>, env': map<nat, T>)
    requires Runnable(order, have)
    requires Solves(meaning, order, env) && Solves(meaning, order, env')
    requires forall t | t in have :: t in env && t in env' && env[t] == env'[t]
    ensures forall t | t in Outputs(order) :: t in env && t in env' && env[t] == env'[t]
  {
    if order != [] {
      var n := |order| - 1;
      var p := order[n];
      SolutionIsUnique(meaning, order[..n], have, env, env');
      assert p in order;
      assert Lookup(env, p.ins) == Lookup(env', p.ins);
    }
  }

  /** Validity does not depend on the order in which operations were added. */
  lemma ReorderedGraphIsValid<K(!new)>(order: seq<Op<K>>, ops: seq<Op<K>>, external: set<nat>)
    requires ValidGraph(ops, external) && SameOps(order, ops) && DistinctIds(order)
    ensures ValidGraph(order, external)
  {
    forall k, l | 0 <= k < l < |order|
      ensures Disjoint(order[k].outs, order[l].outs)
    {
      var p, q := order[k], order[l];
      assert p in ops && q in ops;
      var i, j :| 0 <= i < |ops| && ops[i] == p && 0 <= j < |ops| && ops[j] == q;
      assert if i < j then Disjoint(ops[i].outs, ops[j].outs) else Disjoint(ops[j].outs, ops[i].outs);
    }
  }

  lemma SameOutputs<K(!new)>(order: seq<Op<K>>, order': seq<Op<K>>)
    requires SameOps(order, order')
    ensures Outputs(order) == Outputs(order')
  {
    forall t
      ensures t in Outputs(order) <==> t in Outputs(order')
    {
      OutputOfSome(order, t);
      OutputOfSome(order', t);
      if k :| 0 <= k < |order| && t in order[k].outs {
        assert order[k] in order';
      }
      if k :| 0 <= k < |order'| && t in order'[k].outs {
        assert order'[k] in order;
      }
    }
  }

  /** A run of a schedule solves the graph it schedules. */
  lemma ScheduleSolves<K(!new), T>(meaning: Meaning<K, T>, ops: seq<Op<K>>, env: map<nat, T>, order: seq<Op<K>>)
    requires ValidGraph(ops, env.Keys) && Schedule(order, ops, env.Keys)
    ensures Solves(meaning, ops, Run(meaning, order, env)) && Solves(meaning, order, Run(meaning, order, env))
    ensures forall t | t in env :: Run(meaning, order, env)[t] == env[t]
  {
    ReorderedGraphIsValid(order, ops, env.Keys);
    RunSolves(meaning, order, env);
  }

  /** Whatever order the operations of a valid graph are added or executed in,
      a run solves the graph, and all runs end in the same environment. */
  lemma ScheduleIndependence<K(!new), T>(meaning: Meaning<K, T>, ops: seq<Op<K>>, env: map<nat, T>,
                                         order: seq<Op<K>>, order': seq<Op<K>>)
    requires ValidGraph(ops, env.Keys)
    requires Schedule(order, ops, env.Keys) && Schedule(order', ops, env.Keys)
    ensures Solves(meaning, ops, Run(meaning, order, env))
    ensures forall t | t in env :: Run(meaning, order, env)[t] == env[t]
    ensures Run(meaning, order, env) == Run(meaning, order', env)
  {
    hide Run, Runnable, ValidGraph, DistinctIds, Holds;
    ScheduleSolves(meaning, ops, env, order);
    ScheduleSolves(meaning, ops, env, order');
    var env1, env2 := Run(meaning, order, env), Run(meaning, order', env);
    assert Solves(meaning, order, env2);
    SolutionIsUnique(meaning, order, env.Keys, env1, env2);
    SameOutputs(order, order');
  }

  /** All identifiers of p lie in [low, high). */
  predicate Within<K>(p: Op<K>, low: nat, high: nat) {
    low <= p.id < high && forall t | t in p.outs :: low <= t < high
  }

  /** Operations numbered from one ascending counter are valid when they avoid
      the external tensors. */
  lemma CounterGivesValidGraph<K>(ops: seq<Op<K>>, external: set<nat>, counter: seq<nat>)
    requires |counter| == |ops| + 1
    requires forall k | 0 <= k < |ops| :: Within(ops[k], counter[k], counter[k + 1])
    requires forall p | p in ops :: Distinct(p.outs) && forall t | t in p.outs :: t !in external
    ensures ValidGraph(ops, external)
  {
    forall k, l | 0 <= k < l < |ops|
      ensures ops[k].id != ops[l].id && Disjoint(ops[k].outs, ops[l].outs)
    {
      CounterAscends(ops, counter, k + 1, l);
      assert Within(ops[k], counter[k], counter[k + 1]) && Within(ops[l], counter[l], counter[l + 1]);
    }
  }

  lemma {:induction false} CounterAscends<K>(ops: seq<Op<K>>, counter: seq<nat>, k: nat, l: nat)
    requires |counter| == |ops| + 1 && k <= l <= |ops|
    requires forall j | 0 <= j < |ops| :: Within(ops[j], counter[j], counter[j + 1])
    ensures counter[k] <= counter[l]
  {
    if k < l {
      CounterAscends(ops, counter, k, l - 1);
      assert Within(ops[l - 1], counter[l - 1], counter[l]);
    }
  }

  /** Every input is external or an output of an earlier operation. */
  ghost predicate InputsPrecede<K>(ops: seq<Op<K>>, external: set<nat>, k: nat)
    requires k < |ops|
  {
    forall t | t in ops[k].ins :: t in external || exists j :: 0 <= j < k && t in ops[j].outs
  }

  lemma {:induction false} PrecedingInputsRun<K>(ops: seq<Op<K>>, external: set<nat>, n: nat)
    requires n <= |ops|
    requires forall k: nat | k < |ops| :: InputsPrecede(ops, external, k)
    ensures Runnable(ops[..n], external)
  {
    if n > 0 {
      PrecedingInputsRun(ops, external, n - 1);
      assert ops[..n][..n - 1] == ops[..n - 1];
      assert InputsPrecede(ops, external, n - 1);
      forall t | t in ops[n - 1].ins && t !in external
        ensures t in Outputs(ops[..n - 1])
      {
        var j :| 0 <= j < n - 1 && t in ops[j].outs;
        assert ops[..n - 1][j] == ops[j];
        OutputOfSome(ops[..n - 1], t);
      }
    }
  }
}
