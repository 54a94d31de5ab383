/** Many HTTP clients over shared concurrency slots (internal/authhttp/client.go, cmd/qiniu-exporter/main.go). */
module Slots {
  import opened Core
  import opened Limiter
  import opened AuthHttp

  type Pid = nat

  /** A request in flight: the gated limiters it needs in acquisition order, and how many of them it holds so far. */
  datatype Request = Request(chain: seq<RateLimiter>, holding: nat)

  datatype State = State(capacity: map<RateLimiter, nat>, inUse: map<RateLimiter, nat>, requests: seq<Request>)

  /** Slots of a limiter held by the first n requests. */
  function HeldBy(requests: seq<Request>, l: RateLimiter): nat {
    if |requests| == 0 then 0
    else
      var last := requests[|requests| - 1];
      HeldBy(requests[..|requests| - 1], l) + if l in last.chain[..Within(last)] then 1 else 0
  }

  function Within(r: Request): (n: nat)
    ensures n <= |r.chain|
  {
    if r.holding <= |r.chain| then r.holding else |r.chain|
  }

  /** A limiter is never listed twice by one request, as the client's acquisition guarantees. */
  ghost predicate WellFormed(s: State) {
    && s.capacity.Keys == s.inUse.Keys
    && (forall l :: l in s.capacity ==> s.capacity[l] >= 1)
    && forall p :: 0 <= p < |s.requests| ==> RequestOk(s, s.requests[p])
  }

  ghost predicate RequestOk(s: State, r: Request) {
    r.holding <= |r.chain| && NoDuplicates(r.chain) && forall l :: l in r.chain ==> l in s.capacity
  }

  /** Slots in use are exactly those held by requests, and never exceed the capacity. */
  ghost predicate Conserved(s: State) {
    WellFormed(s) && forall l :: l in s.capacity ==> s.inUse[l] == HeldBy(s.requests, l) <= s.capacity[l]
  }

  datatype Action = Start(chain: seq<RateLimiter>) | Take | Drop

  predicate Enabled(s: State, p: Pid, a: Action)
    requires s.capacity.Keys == s.inUse.Keys
  {
    match a
    case Start(chain) => p == |s.requests| && NoDuplicates(chain) && forall l :: l in chain ==> l in s.capacity
    case Take =>
      && p < |s.requests| && s.requests[p].holding < |s.requests[p].chain|
      && var wanted := s.requests[p].chain[s.requests[p].holding];
        wanted in s.capacity && s.inUse[wanted] < s.capacity[wanted]
    case Drop => p < |s.requests| && s.requests[p].holding <= |s.requests[p].chain|
  }

  /** A request takes its next slot, or gives back everything it holds: after its answer, an error or a cancellation. */
  function Effect(s: State, p: Pid, a: Action): State
    requires s.capacity.Keys == s.inUse.Keys && Enabled(s, p, a)
  {
    match a
    case Start(chain) => s.(requests := s.requests + [Request(chain, 0)])
    case Take =>
      var r := s.requests[p];
      var wanted := r.chain[r.holding];
      s.(requests := s.requests[p := r.(holding := r.holding + 1)], inUse := s.inUse[wanted := s.inUse[wanted] + 1])
    case Drop =>
      var r := s.requests[p];
      s.(requests := s.requests[p := Request([], 0)], inUse := Returned(s.inUse, r.chain[..r.holding]))
  }

  function Returned(inUse: map<RateLimiter, nat>, held: seq<RateLimiter>): map<RateLimiter, nat> {
    map l | l in inUse :: if l in held && inUse[l] > 0 then inUse[l] - 1 else inUse[l]
  }

  lemma {:induction false} HeldAppend(requests: seq<Request>, r: Request, l: RateLimiter)
    ensures HeldBy(requests + [r], l) == HeldBy(requests, l) + if l in r.chain[..Within(r)] then 1 else 0
  {
    assert (requests + [r])[..|requests|] == requests;
  }

  /** Changing one request changes the count by that request's own contribution. */
  lemma {:induction false} HeldUpdate(requests: seq<Request>, p: Pid, r: Request, l: RateLimiter)
    requires p < |requests|
    ensures HeldBy(requests[p := r], l) + (if l in requests[p].chain[..Within(requests[p])] then 1 else 0)
         == HeldBy(requests, l) + if l in r.chain[..Within(r)] then 1 else 0
    decreases |requests|
  {
    var init := requests[..|requests| - 1];
    if p == |init| {
      assert requests[p := r][..|init|] == init;
    } else {
      assert requests[p := r][..|init|] == init[p := r];
      HeldUpdate(init, p, r, l);
    }
  }

  lemma {:induction false} HoldersCount(requests: seq<Request>, p: Pid, l: RateLimiter)
    requires p < |requests| && l in requests[p].chain[..Within(requests[p])]
    ensures HeldBy(requests, l) >= 1
    decreases |requests|
  {
    if p < |requests| - 1 {
      HoldersCount(requests[..|requests| - 1], p, l);
    }
  }

  lemma TakeMembership(r: Request, l: RateLimiter)
    requires r.holding < |r.chain| && NoDuplicates(r.chain)
    ensures l in r.chain[..r.holding + 1] <==> l in r.chain[..r.holding] || l == r.chain[r.holding]
    ensures r.chain[r.holding] !in r.chain[..r.holding]
  {
    assert r.chain[..r.holding + 1] == r.chain[..r.holding] + [r.chain[r.holding]];
  }

  /** Main law: every step of every client conserves slots. */
  lemma StepConserves(s: State, p: Pid, a: Action)
    requires Conserved(s) && Enabled(s, p, a)
    ensures Conserved(Effect(s, p, a))
  {
    hide HeldBy;
    var next := Effect(s, p, a);
    forall l | l in s.capacity
      ensures next.inUse[l] == HeldBy(next.requests, l) <= next.capacity[l]
    {
      match a {
        case Start(chain) => HeldAppend(s.requests, Request(chain, 0), l);
        case Take =>
          HeldUpdate(s.requests, p, s.requests[p].(holding := s.requests[p].holding + 1), l);
          TakeMembership(s.requests[p], l);
        case Drop =>
          HeldUpdate(s.requests, p, Request([], 0), l);
          if l in s.requests[p].chain[..s.requests[p].holding] {
            HoldersCount(s.requests, p, l);
          }
      }
    }
  }

  ghost predicate IsRun(states: seq<State>, actions: seq<(Pid, Action)>) {
    && |states| == |actions| + 1 && Conserved(states[0]) && states[0].requests == []
    && forall i :: 0 <= i < |actions| ==> Steps(states[i], actions[i], states[i + 1])
  }

  ghost predicate Steps(s: State, step: (Pid, Action), next: State) {
    s.capacity.Keys == s.inUse.Keys && Enabled(s, step.0, step.1) && next == Effect(s, step.0, step.1)
  }

  /** In every interleaving the slots in use are exactly those held. */
  lemma {:induction false} AlwaysConserved(states: seq<State>, actions: seq<(Pid, Action)>, i: nat)
    requires IsRun(states, actions) && i < |states|
    ensures Conserved(states[i])
  {
    if i > 0 {
      AlwaysConserved(states, actions, i - 1);
      assert Steps(states[i - 1], actions[i - 1], states[i]);
      StepConserves(states[i - 1], actions[i - 1].0, actions[i - 1].1);
    }
  }

  lemma {:induction false} NothingHeld(requests: seq<Request>, l: RateLimiter)
    requires forall p :: 0 <= p < |requests| ==> !Pending(requests[p])
    ensures HeldBy(requests, l) == 0
  {
    if |requests| > 0 {
      assert !Pending(requests[|requests| - 1]);
      NothingHeld(requests[..|requests| - 1], l);
    }
  }

  /** When no request is pending every slot is free. */
  lemma AllFreeAtRest(s: State, l: RateLimiter)
    requires Conserved(s) && l in s.capacity && forall p :: 0 <= p < |s.requests| ==> !Pending(s.requests[p])
    ensures s.inUse[l] == 0
  {
    NothingHeld(s.requests, l);
  }

  // ---- No deadlock ----

  /** Every request climbs in one common order, as host before endpoint does. */
  ghost predicate Ordered(s: State, rank: RateLimiter -> nat) {
    forall p :: 0 <= p < |s.requests| ==> Climbs(s.requests[p].chain, rank)
  }

  ghost predicate Climbs(chain: seq<RateLimiter>, rank: RateLimiter -> nat) {
    forall i, j :: 0 <= i < j < |chain| ==> rank(chain[i]) < rank(chain[j])
  }

  predicate Pending(r: Request) { |r.chain| > 0 }

  /** The rank of the last slot a request holds, counted from one; zero when it holds none. */
  function Level(r: Request, rank: RateLimiter -> nat): nat {
    if 0 < r.holding <= |r.chain| then rank(r.chain[r.holding - 1]) + 1 else 0
  }

  /** Among pending requests, one whose level is highest. */
  lemma {:induction false} Highest(requests: seq<Request>, rank: RateLimiter -> nat, some: Pid) returns (p: Pid)
    requires some < |requests| && Pending(requests[some])
    ensures p < |requests| && Pending(requests[p])
    ensures forall q :: 0 <= q < |requests| && Pending(requests[q]) ==> Level(requests[q], rank) <= Level(requests[p], rank)
  {
    p := some;
    for i := 0 to |requests|
      invariant p < |requests| && Pending(requests[p])
      invariant forall q :: 0 <= q < i && Pending(requests[q]) ==> Level(requests[q], rank) <= Level(requests[p], rank)
    {
      if Pending(requests[i]) && Level(requests[i], rank) > Level(requests[p], rank) {
        p := i;
      }
    }
  }

  /** A slot held by somebody ranks at most that request's level. */
  lemma HeldRanks(r: Request, rank: RateLimiter -> nat, l: RateLimiter)
    requires r.holding <= |r.chain| && Climbs(r.chain, rank) && l in r.chain[..r.holding]
    ensures rank(l) < Level(r, rank) && Pending(r)
  {
  }

  lemma WantedRanks(r: Request, rank: RateLimiter -> nat)
    requires r.holding < |r.chain| && Climbs(r.chain, rank)
    ensures rank(r.chain[r.holding]) >= Level(r, rank)
  {
  }

  lemma {:induction false} Holder(requests: seq<Request>, l: RateLimiter) returns (p: Pid)
    requires HeldBy(requests, l) > 0
    ensures p < |requests| && l in requests[p].chain[..Within(requests[p])]
  {
    var init, last := requests[..|requests| - 1], requests[|requests| - 1];
    if l in last.chain[..Within(last)] {
      p := |requests| - 1;
    } else {
      p := Holder(init, l);
    }
  }

  /** Main law: with a common order, while any request is pending some client can take its next slot or finish. */
  lemma NoDeadlock(s: State, rank: RateLimiter -> nat, some: Pid) returns (p: Pid)
    requires Conserved(s) && Ordered(s, rank) && some < |s.requests| && Pending(s.requests[some])
    ensures p < |s.requests| && Pending(s.requests[p])
    ensures Enabled(s, p, Take) || s.requests[p].holding == |s.requests[p].chain|
  {
    hide HeldBy;
    p := Highest(s.requests, rank, some);
    var r := s.requests[p];
    assert RequestOk(s, r) && Climbs(r.chain, rank);
    if r.holding < |r.chain| {
      var wanted := r.chain[r.holding];
      assert wanted in r.chain;
      WantedRanks(r, rank);
      if HeldBy(s.requests, wanted) > 0 {
        var q := Holder(s.requests, wanted);
        assert RequestOk(s, s.requests[q]) && Climbs(s.requests[q].chain, rank);
        HeldRanks(s.requests[q], rank, wanted);
        assert false;
      }
    }
  }

  /** A client can always give up, and each slot it held becomes free again. */
  lemma DropFrees(s: State, p: Pid)
    requires Conserved(s) && p < |s.requests|
    ensures Enabled(s, p, Drop)
    ensures forall l :: l in s.capacity && l in s.requests[p].chain[..s.requests[p].holding] ==>
              Effect(s, p, Drop).inUse[l] + 1 == s.inUse[l]
  {
    hide HeldBy;
    var r := s.requests[p];
    assert RequestOk(s, r);
    forall l | l in r.chain[..r.holding]
      ensures l in s.capacity && s.inUse[l] > 0
    {
      assert l in r.chain;
      HoldersCount(s.requests, p, l);
    }
  }

  // ---- The clients' own order ----

  /** Attempt budgets have no slots, and a client whose endpoint is anybody's host has it as its own host, too. */
  ghost predicate Wired(clients: set<Client>) {
    && (forall c :: c in clients ==> (c.first != null ==> !c.first.gated) && (c.retry != null ==> !c.retry.gated))
    && forall c, d :: c in clients && d in clients && d.endpoint != null && c.host == d.endpoint ==> d.host == d.endpoint
  }

  /** The limiters of a chain that have slots. */
  function Gated(chain: seq<RateLimiter>): seq<RateLimiter> {
    if |chain| == 0 then []
    else
      var earlier, last := Gated(chain[..|chain| - 1]), chain[|chain| - 1];
      if last.gated then earlier + [last] else earlier
  }

  lemma GatedAdd(chain: seq<RateLimiter>, l: RateLimiter?)
    ensures Gated(Client.Add(chain, l)) == if l == null || l in chain || !l.gated then Gated(chain) else Gated(chain) + [l]
  {
    if l != null {
      assert (chain + [l])[..|chain|] == chain;
    }
  }

  /** Hosts before everything else. */
  ghost function HostsFirst(clients: set<Client>): RateLimiter -> nat {
    (l: RateLimiter) => if exists c :: c in clients && c.host == l then 0 else 1
  }

  function OneGated(l: RateLimiter?): seq<RateLimiter> { if l == null || !l.gated then [] else [l] }

  /** Host before endpoint, and only once when they are the same. */
  lemma ChainShape(c: Client, firstAttempt: bool)
    requires (c.first != null ==> !c.first.gated) && (c.retry != null ==> !c.retry.gated)
    ensures Gated(c.Chain(firstAttempt)) == OneGated(c.host) + if c.endpoint == c.host then [] else OneGated(c.endpoint)
  {
    hide Gated;
    var limiter := if firstAttempt then c.first else c.retry;
    var budget := Client.Add([], limiter);
    GatedNothing();
    GatedAdd([], limiter);
    GatedAdd(budget, c.host);
    GatedAdd(Client.Add(budget, c.host), c.endpoint);
    assert budget == if limiter == null then [] else [limiter];
  }

  lemma GatedNothing()
    ensures Gated([]) == []
  {
  }

  /** The slots of every attempt, first or repeated, are taken in one order that all wired clients share. */
  lemma ChainClimbs(clients: set<Client>, c: Client, firstAttempt: bool)
    requires Wired(clients) && c in clients
    ensures Climbs(Gated(c.Chain(firstAttempt)), HostsFirst(clients)) && NoDuplicates(Gated(c.Chain(firstAttempt)))
  {
    hide Gated;
    ChainShape(c, firstAttempt);
    if c.endpoint != null && c.endpoint != c.host {
      assert HostsFirst(clients)(c.endpoint) == 1;
    }
  }

  /** Every request of a run is an attempt of one of the clients. */
  ghost predicate StartsAttempts(actions: seq<(Pid, Action)>, clients: set<Client>) {
    forall i :: 0 <= i < |actions| && actions[i].1.Start? ==> IsAttempt(actions[i].1.chain, clients)
  }

  ghost predicate IsAttempt(chain: seq<RateLimiter>, clients: set<Client>) {
    exists c, firstAttempt :: c in clients && chain == Gated(c.Chain(firstAttempt))
  }

  lemma {:induction false} AlwaysOrdered(states: seq<State>, actions: seq<(Pid, Action)>, clients: set<Client>, i: nat)
    requires IsRun(states, actions) && i < |states| && Wired(clients) && StartsAttempts(actions, clients)
    ensures Ordered(states[i], HostsFirst(clients))
  {
    hide Climbs, HostsFirst, Wired, IsAttempt, Conserved;
    if i > 0 {
      var (p, a) := actions[i - 1];
      AlwaysOrdered(states, actions, clients, i - 1);
      assert Steps(states[i - 1], actions[i - 1], states[i]);
      NothingClimbs(HostsFirst(clients));
      if a.Start? {
        assert IsAttempt(actions[i - 1].1.chain, clients);
        AttemptClimbs(a.chain, clients);
      }
    }
  }

  lemma NothingClimbs(rank: RateLimiter -> nat)
    ensures Climbs([], rank)
  {
  }

  lemma AttemptClimbs(chain: seq<RateLimiter>, clients: set<Client>)
    requires Wired(clients) && IsAttempt(chain, clients)
    ensures Climbs(chain, HostsFirst(clients))
  {
    hide Wired, Climbs;
    var c, firstAttempt :| c in clients && chain == Gated(c.Chain(firstAttempt));
    ChainClimbs(clients, c, firstAttempt);
  }

  /** Main law: in every run of wired clients, while any request is pending some client can take its next slot or finish. */
  lemma ClientsNeverDeadlock(states: seq<State>, actions: seq<(Pid, Action)>, clients: set<Client>, i: nat, some: Pid) returns (p: Pid)
    requires IsRun(states, actions) && i < |states| && Wired(clients) && StartsAttempts(actions, clients)
    requires some < |states[i].requests| && Pending(states[i].requests[some])
    ensures Conserved(states[i]) && p < |states[i].requests| && Pending(states[i].requests[p])
    ensures Enabled(states[i], p, Take) || states[i].requests[p].holding == |states[i].requests[p].chain|
  {
    hide IsRun, Wired, StartsAttempts, Ordered, HostsFirst;
    AlwaysConserved(states, actions, i);
    AlwaysOrdered(states, actions, clients, i);
    p := NoDeadlock(states[i], HostsFirst(clients), some);
  }

  datatype Rates = Rates(hard: real, first: real, retry: real)

  predicate Positive(r: Rates) { r.hard > 0.0 && r.first > 0.0 && r.retry > 0.0 }

  /** The clients of a fully enabled exporter, over the limiters they share: they are wired. */
  method WireClients(api: Rates, kodo: Rates, fusion: Rates, billing: Rates)
    returns (kodoClient: Client, buckets: Client, cdnClient: Client, domains: Client, billingClient: Client)
    requires Positive(api) && Positive(kodo) && Positive(fusion) && Positive(billing)
    ensures Wired({kodoClient, buckets, cdnClient, domains, billingClient})
    ensures kodoClient.host == buckets.host != null && cdnClient.host != null && domains.host == billingClient.host != null
    ensures billingClient.endpoint != null && billingClient.endpoint != billingClient.host
  {
    hide Wired;
    var apiHost, apiFirst, apiRetry := NewLayer(api);
    var kodoHost, kodoFirst, kodoRetry := NewLayer(kodo);
    kodoClient := new Client(kodoFirst, kodoRetry, kodoHost, null, 2);
    buckets := new Client(kodoFirst, kodoRetry, kodoHost, null, 2);
    var fusionHost, fusionFirst, fusionRetry := NewLayer(fusion);
    cdnClient := new Client(fusionFirst, fusionRetry, fusionHost, null, 2);
    domains := new Client(apiFirst, apiRetry, apiHost, null, 2);
    var billingLimit, billingFirst, billingRetry := NewLayer(billing);
    billingClient := new Client(billingFirst, billingRetry, apiHost, billingLimit, 2);
    OneEndpoint({kodoClient, buckets, cdnClient, domains, billingClient}, billingLimit);
  }

  /** A limiter with slots, and the budgets of first and repeated attempts without. */
  method NewLayer(r: Rates) returns (hard: RateLimiter, first: RateLimiter, retry: RateLimiter)
    requires Positive(r)
    ensures fresh(hard) && fresh(first) && fresh(retry) && hard.gated && !first.gated && !retry.gated
  {
    hard := new RateLimiter(r.hard, true);
    first := new RateLimiter(r.first, false);
    retry := new RateLimiter(r.retry, false);
  }

  /** It suffices that the only endpoint limiter is nobody's host. */
  lemma OneEndpoint(clients: set<Client>, endpoint: RateLimiter)
    requires forall c :: c in clients ==>
               && c.first != null && !c.first.gated && c.retry != null && !c.retry.gated
               && c.host != endpoint && (c.endpoint == null || c.endpoint == endpoint)
    ensures Wired(clients)
  {
  }

  /** Without a common order two clients can block each other for good: each holds what the other wants. */
  lemma OppositeOrdersDeadlock(one: RateLimiter, two: RateLimiter)
    requires one != two
    ensures var s := State(map[one := 1, two := 1], map[one := 1, two := 1], [Request([one, two], 1), Request([two, one], 1)]);
      && Conserved(s)
      && forall p :: 0 <= p < |s.requests| ==> !Enabled(s, p, Take) && s.requests[p].holding < |s.requests[p].chain|
  {
    var a, b := Request([one, two], 1), Request([two, one], 1);
    assert [a, b][..1] == [a] && [a][..0] == [];
    assert a.chain[..1] == [one] && b.chain[..1] == [two];
    forall l: RateLimiter
      ensures HeldBy([a, b], l) == (if l == one || l == two then 1 else 0)
    {
      assert HeldBy([a], l) == HeldBy([], l) + if l in a.chain[..1] then 1 else 0;
      assert HeldBy([a, b], l) == HeldBy([a], l) + if l in b.chain[..1] then 1 else 0;
    }
  }
}
