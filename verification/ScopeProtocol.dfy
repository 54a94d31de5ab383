/**
 * Discovery, usage rounds and top-IP rounds over one shared scope (internal/app/cdn.go). Every action is one atomic step
 * between lock operations; any number of processes may run any of the three jobs.
 */
module ScopeProtocol {
  import opened Core
  import UsageJob
  import Isolation

  /** A whole-account snapshot: the scope it was collected for, the domains it covers, and whether it claims to be complete. */
  datatype Published = Published(scope: seq<string>, domains: seq<string>, complete: bool)

  datatype Kind = Usage | TopIps

  /** Where a process stands. The states from Comparing to Leaving, and Checking and Publishing, are inside the scope mutex. */
  datatype Local =
    | Idle
    | Listed(domains: seq<string>)
    | Comparing(domains: seq<string>)
    | ClearingUsage(domains: seq<string>)
    | ClearingTopIps(domains: seq<string>)
    | Replacing(domains: seq<string>)
    | Collecting(kind: Kind, scope: seq<string>)
    | Collected(kind: Kind, snapshot: Published)
    | Checking(kind: Kind, snapshot: Published)
    | Publishing(kind: Kind, snapshot: Published)
    | Leaving

  type Pid = nat

  datatype State = State(catalog: seq<string>, usage: Option<Published>, topIps: Option<Published>, lock: Option<Pid>, procs: map<Pid, Local>)

  datatype Action =
    | Discover(domains: seq<string>)
    | Begin(kind: Kind)
    | Finish(result: UsageJob.Collected)
    | Abandon
    | Advance

  /** What a finished round would publish; a top-IP round either covers its whole scope or fails. */
  function Product(kind: Kind, scope: seq<string>, result: UsageJob.Collected): Published {
    match kind
    case Usage => Published(scope, Isolation.Succeeded(result.round), UsageJob.MonthPart(result, scope).complete)
    case TopIps => Published(scope, scope, true)
  }

  function Publish(s: State, kind: Kind, snapshot: Published): State {
    match kind
    case Usage => s.(usage := Some(snapshot))
    case TopIps => s.(topIps := Some(snapshot))
  }

  function At(s: State, p: Pid, local: Local): State { s.(procs := s.procs[p := local]) }

  predicate Enabled(s: State, p: Pid, a: Action) {
    && p in s.procs
    && match s.procs[p]
       case Idle => a.Discover? || (a.Begin? && |s.catalog| > 0)
       case Collecting(_, _) => a.Finish? || a.Abandon?
       case Listed(_) => a.Advance? && s.lock.None?
       case Collected(_, _) => a.Advance? && s.lock.None?
       case _ => a.Advance?
  }

  /** The effect of an enabled action. */
  function Effect(s: State, p: Pid, a: Action): State
    requires Enabled(s, p, a)
  {
    match s.procs[p]
    case Idle => At(s, p, if a.Discover? then Listed(a.domains) else Collecting(a.kind, s.catalog))
    case Listed(domains) => At(s, p, Comparing(domains)).(lock := Some(p))
    case Comparing(domains) => At(s, p, if s.catalog != domains then ClearingUsage(domains) else Replacing(domains))
    case ClearingUsage(domains) => At(s, p, ClearingTopIps(domains)).(usage := None)
    case ClearingTopIps(domains) => At(s, p, Replacing(domains)).(topIps := None)
    case Replacing(domains) => At(s, p, Leaving).(catalog := domains)
    case Collecting(kind, scope) => At(s, p, if a.Finish? then Collected(kind, Product(kind, scope, a.result)) else Idle)
    case Collected(kind, snapshot) => At(s, p, Checking(kind, snapshot)).(lock := Some(p))
    case Checking(kind, snapshot) => At(s, p, if s.catalog == snapshot.scope then Publishing(kind, snapshot) else Leaving)
    case Publishing(kind, snapshot) => At(Publish(s, kind, snapshot), p, Leaving)
    case Leaving => At(s, p, Idle).(lock := None)
  }

  ghost predicate Initial(s: State) {
    && s.catalog == [] && s.usage.None? && s.topIps.None? && s.lock.None?
    && forall p :: p in s.procs ==> s.procs[p] == Idle
  }

  // ---- Safety ----

  predicate InMutex(local: Local) {
    local.Comparing? || local.ClearingUsage? || local.ClearingTopIps? || local.Replacing? || local.Checking? || local.Publishing?
    || local.Leaving?
  }

  /** A visible snapshot belongs to the current scope, and covers all of it when it claims to be complete. */
  predicate Fits(store: Option<Published>, catalog: seq<string>) {
    store.Some? ==> store.value.scope == catalog && (store.value.complete ==> store.value.domains == catalog)
  }

  ghost predicate Safe(s: State) { Fits(s.usage, s.catalog) && Fits(s.topIps, s.catalog) }

  predicate LocalOk(s: State, local: Local) {
    match local
    case Collected(_, snapshot) => snapshot.complete ==> snapshot.domains == snapshot.scope
    case Checking(_, snapshot) => snapshot.complete ==> snapshot.domains == snapshot.scope
    case Publishing(_, snapshot) => snapshot.scope == s.catalog && (snapshot.complete ==> snapshot.domains == snapshot.scope)
    case ClearingTopIps(_) => s.usage.None?
    case Replacing(domains) => domains == s.catalog || (s.usage.None? && s.topIps.None?)
    case _ => true
  }

  ghost predicate Invariant(s: State) {
    && Safe(s)
    && (forall p :: p in s.procs ==> LocalOk(s, s.procs[p]) && (InMutex(s.procs[p]) <==> s.lock == Some(p)))
    && (s.lock.Some? ==> s.lock.value in s.procs)
  }

  lemma ProductFits(kind: Kind, scope: seq<string>, result: UsageJob.Collected)
    ensures var p := Product(kind, scope, result); p.scope == scope && (p.complete ==> p.domains == scope)
  {
  }

  /** Every atomic step of every process keeps the invariant. */
  lemma StepKeepsInvariant(s: State, p: Pid, a: Action)
    requires Invariant(s) && Enabled(s, p, a)
    ensures Invariant(Effect(s, p, a))
  {
    hide Product;
    if s.procs[p].Collecting? && a.Finish? {
      ProductFits(s.procs[p].kind, s.procs[p].scope, a.result);
    }
    var next := Effect(s, p, a);
    forall q | q in next.procs
      ensures LocalOk(next, next.procs[q]) && (InMutex(next.procs[q]) <==> next.lock == Some(q))
    {
      assert LocalOk(s, s.procs[q]) && (InMutex(s.procs[q]) <==> s.lock == Some(q));
    }
  }

  /** A run: one state more than actions, each enabled where it is taken. */
  ghost predicate IsRun(states: seq<State>, actions: seq<(Pid, Action)>) {
    && |states| == |actions| + 1 && Initial(states[0])
    && forall i :: 0 <= i < |actions| ==> Steps(states[i], actions[i], states[i + 1])
  }

  ghost predicate Steps(s: State, step: (Pid, Action), next: State) {
    Enabled(s, step.0, step.1) && next == Effect(s, step.0, step.1)
  }

  /** Main law: at every state of every interleaving, published snapshots were collected for exactly the current scope. */
  lemma {:induction false} AlwaysSafe(states: seq<State>, actions: seq<(Pid, Action)>, i: nat)
    requires IsRun(states, actions) && i < |states|
    ensures Invariant(states[i]) && Safe(states[i])
  {
    if i > 0 {
      AlwaysSafe(states, actions, i - 1);
      assert Steps(states[i - 1], actions[i - 1], states[i]);
      StepKeepsInvariant(states[i - 1], actions[i - 1].0, actions[i - 1].1);
    }
  }

  /** The mutex is exclusive, and its holder is never blocked. */
  lemma HolderAdvances(s: State)
    requires Invariant(s) && s.lock.Some?
    ensures Enabled(s, s.lock.value, Advance)
    ensures forall p :: p in s.procs && InMutex(s.procs[p]) ==> p == s.lock.value
  {
  }

  /** Steps the holder still needs before it leaves. */
  function Remaining(local: Local): nat {
    match local
    case Comparing(_) => 5
    case ClearingUsage(_) => 4
    case ClearingTopIps(_) => 3
    case Replacing(_) => 2
    case Checking(_, _) => 3
    case Publishing(_, _) => 2
    case Leaving => 1
    case _ => 0
  }

  /** Left alone, the holder releases the mutex after at most five of its own steps; nobody else can disturb it. */
  lemma HolderLeaves(s: State, p: Pid, a: Action)
    requires Invariant(s) && s.lock.Some? && Enabled(s, p, a)
    ensures var next := Effect(s, p, a);
      if p == s.lock.value
      then Remaining(next.procs[p]) < Remaining(s.procs[p]) <= 5 && (Remaining(next.procs[p]) == 0 <==> next.lock.None?)
      else next.lock == s.lock && next.procs[s.lock.value] == s.procs[s.lock.value]
           && next.catalog == s.catalog && next.usage == s.usage && next.topIps == s.topIps
  {
  }

  /** A round whose scope is no longer current leaves without publishing. */
  lemma OutdatedRoundIsDropped(s: State, p: Pid)
    requires Invariant(s) && p in s.procs && s.procs[p].Checking? && s.procs[p].snapshot.scope != s.catalog
    ensures Enabled(s, p, Advance)
    ensures var next := Effect(s, p, Advance); next.procs[p] == Leaving && next.usage == s.usage && next.topIps == s.topIps
  {
  }

  // ---- What rounds and discoveries achieve ----

  /** Consecutive steps from any state that keeps the invariant. */
  ghost predicate IsStretch(states: seq<State>, actions: seq<(Pid, Action)>) {
    && |states| == |actions| + 1 && Invariant(states[0])
    && forall i :: 0 <= i < |actions| ==> Steps(states[i], actions[i], states[i + 1])
  }

  /** The number of steps a process takes. */
  function Own(actions: seq<(Pid, Action)>, p: Pid): nat {
    if |actions| == 0 then 0 else Own(actions[..|actions| - 1], p) + if actions[|actions| - 1].0 == p then 1 else 0
  }

  lemma {:induction false} StretchKeepsInvariant(states: seq<State>, actions: seq<(Pid, Action)>, i: nat)
    requires IsStretch(states, actions) && i < |states|
    ensures Invariant(states[i])
  {
    hide Invariant, Effect, Enabled;
    if i > 0 {
      StretchKeepsInvariant(states, actions, i - 1);
      assert Steps(states[i - 1], actions[i - 1], states[i]);
      StepKeepsInvariant(states[i - 1], actions[i - 1].0, actions[i - 1].1);
    }
  }

  predicate SameStores(a: State, b: State) { a.usage == b.usage && a.topIps == b.topIps }

  /** The mutex is with a process, and the scope is still that of an earlier state. */
  predicate Holding(start: State, s: State, p: Pid) { p in s.procs && s.lock == Some(p) && s.catalog == start.catalog }

  /** How far a round on the current scope has got after so many of its own steps inside the mutex. */
  predicate RoundStage(start: State, s: State, p: Pid, kind: Kind, snapshot: Published, own: nat) {
    && Holding(start, s, p)
    && match own
       case 0 => s.procs[p] == Checking(kind, snapshot) && SameStores(start, s)
       case 1 => s.procs[p] == Publishing(kind, snapshot) && SameStores(start, s)
       case _ =>
         && s.procs[p] == Leaving
         && s.usage == (if kind == Usage then Some(snapshot) else start.usage)
         && s.topIps == (if kind == TopIps then Some(snapshot) else start.topIps)
  }

  lemma RoundStep(start: State, s: State, p: Pid, kind: Kind, snapshot: Published, own: nat, q: Pid, a: Action)
    requires Invariant(s) && RoundStage(start, s, p, kind, snapshot, own) && snapshot.scope == start.catalog && Enabled(s, q, a)
    requires q == p ==> own < 2
    ensures RoundStage(start, Effect(s, q, a), p, kind, snapshot, own + if q == p then 1 else 0)
  {
    if q != p {
      HolderLeaves(s, q, a);
    }
  }

  /** Nothing else touches the stores or the scope: only publishing fills a store, only discovery clears one or moves the scope. */
  lemma OnlyTheseChange(s: State, p: Pid, a: Action)
    requires Invariant(s) && Enabled(s, p, a)
    ensures var next, local := Effect(s, p, a), s.procs[p];
      && (next.usage != s.usage ==>
            (local.Publishing? && local.kind == Usage && next.usage == Some(local.snapshot)) || (local.ClearingUsage? && next.usage.None?))
      && (next.topIps != s.topIps ==>
            (local.Publishing? && local.kind == TopIps && next.topIps == Some(local.snapshot)) || (local.ClearingTopIps? && next.topIps.None?))
      && (next.catalog != s.catalog ==> local.Replacing? && next.catalog == local.domains)
  {
  }

  /** Main law of publication: a round whose scope is still current publishes in two steps, whatever others do in between. */
  lemma {:induction false} RoundPublishes(states: seq<State>, actions: seq<(Pid, Action)>, p: Pid, kind: Kind, snapshot: Published)
    requires IsStretch(states, actions) && p in states[0].procs && states[0].procs[p] == Checking(kind, snapshot)
    requires snapshot.scope == states[0].catalog && Own(actions, p) <= 2
    ensures RoundStage(states[0], states[|actions|], p, kind, snapshot, Own(actions, p))
    ensures Own(actions, p) == 2 ==> (if kind == Usage then states[|actions|].usage else states[|actions|].topIps) == Some(snapshot)
  {
    hide Effect, Enabled, Invariant;
    if |actions| == 0 {
      HolderIs(states[0], p);
    } else {
      var n := |actions| - 1;
      assert Steps(states[n], actions[n], states[n + 1]);
      RoundPublishes(states[..n + 1], actions[..n], p, kind, snapshot);
      StretchKeepsInvariant(states, actions, n);
      RoundStep(states[0], states[n], p, kind, snapshot, Own(actions[..n], p), actions[n].0, actions[n].1);
    }
  }

  lemma HolderIs(s: State, p: Pid)
    requires Invariant(s) && p in s.procs && InMutex(s.procs[p])
    ensures s.lock == Some(p)
  {
  }

  /** How far a discovery has got after so many of its own steps inside the mutex. */
  predicate DiscoveryStage(start: State, s: State, p: Pid, domains: seq<string>, own: nat) {
    && p in s.procs && s.lock == Some(p)
    && if start.catalog == domains
       then
         && SameStores(start, s) && s.catalog == domains
         && s.procs[p] == if own == 0 then Comparing(domains) else if own == 1 then Replacing(domains) else Leaving
       else
         && s.catalog == (if own >= 4 then domains else start.catalog)
         && s.usage == (if own >= 2 then None else start.usage) && s.topIps == (if own >= 3 then None else start.topIps)
         && s.procs[p] == match own
                          case 0 => Comparing(domains)
                          case 1 => ClearingUsage(domains)
                          case 2 => ClearingTopIps(domains)
                          case 3 => Replacing(domains)
                          case _ => Leaving
  }

  /** The steps a discovery takes inside the mutex before it leaves. */
  function DiscoverySteps(start: State, domains: seq<string>): nat { if start.catalog == domains then 2 else 4 }

  lemma DiscoveryStep(start: State, s: State, p: Pid, domains: seq<string>, own: nat, q: Pid, a: Action)
    requires Invariant(s) && DiscoveryStage(start, s, p, domains, own) && Enabled(s, q, a)
    requires q == p ==> own < DiscoverySteps(start, domains)
    ensures DiscoveryStage(start, Effect(s, q, a), p, domains, own + if q == p then 1 else 0)
  {
    if q != p {
      HolderLeaves(s, q, a);
    }
  }

  /**
   * Main law of discovery: one that finds the same list leaves both stores as they were, one that finds another list clears
   * both, and either has set the scope to its list before it leaves, whatever others do in between.
   */
  lemma {:induction false} DiscoveryReplaces(states: seq<State>, actions: seq<(Pid, Action)>, p: Pid, domains: seq<string>)
    requires IsStretch(states, actions) && p in states[0].procs && states[0].procs[p] == Comparing(domains)
    requires Own(actions, p) <= DiscoverySteps(states[0], domains)
    ensures DiscoveryStage(states[0], states[|actions|], p, domains, Own(actions, p))
    ensures Own(actions, p) == DiscoverySteps(states[0], domains) ==>
              && states[|actions|].procs[p] == Leaving && states[|actions|].catalog == domains
              && if states[0].catalog == domains then SameStores(states[0], states[|actions|])
                 else states[|actions|].usage.None? && states[|actions|].topIps.None?
  {
    hide Effect, Enabled, Invariant;
    if |actions| == 0 {
      HolderIs(states[0], p);
    } else {
      var n := |actions| - 1;
      assert Steps(states[n], actions[n], states[n + 1]);
      DiscoveryReplaces(states[..n + 1], actions[..n], p, domains);
      StretchKeepsInvariant(states, actions, n);
      DiscoveryStep(states[0], states[n], p, domains, Own(actions[..n], p), actions[n].0, actions[n].1);
    }
  }

  /** The states a process goes through on its own. */
  ghost predicate Alone(states: seq<State>, p: Pid, actions: seq<Action>) {
    && |states| == |actions| + 1
    && forall i :: 0 <= i < |actions| ==> Steps(states[i], (p, actions[i]), states[i + 1])
  }

  /** A whole usage round on its own is always possible, and publishes the current scope with the domains that answered. */
  lemma WholeRound(s: State, p: Pid, result: UsageJob.Collected) returns (states: seq<State>)
    requires Invariant(s) && p in s.procs && s.procs[p] == Idle && s.lock.None? && |s.catalog| > 0
    ensures Alone(states, p, [Begin(Usage), Finish(result), Advance, Advance, Advance, Advance]) && states[0] == s
    ensures states[6].usage ==
              Some(Published(s.catalog, Isolation.Succeeded(result.round), result.round.failed == [] && Isolation.Succeeded(result.round) == s.catalog))
    ensures states[6].catalog == s.catalog && states[6].topIps == s.topIps && states[6].lock.None?
    ensures p in states[6].procs && states[6].procs[p] == Idle
  {
    hide Invariant, Isolation.Succeeded;
    var product := Product(Usage, s.catalog, result);
    var s1 := At(s, p, Collecting(Usage, s.catalog));
    var s2 := At(s1, p, Collected(Usage, product));
    var s3 := At(s2, p, Checking(Usage, product)).(lock := Some(p));
    var s4 := At(s3, p, Publishing(Usage, product));
    var s5 := At(Publish(s4, Usage, product), p, Leaving);
    var s6 := At(s5, p, Idle).(lock := None);
    states := [s, s1, s2, s3, s4, s5, s6];
  }
}
