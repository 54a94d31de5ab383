/** The HTTP client's attempt loop and its layered acquisition (internal/authhttp/client.go). */
module AuthHttp {
  import opened Core
  import opened Limiter

  /** What the caller meets at one limiter: an already cancelled context, a free slot, and its polls for a grant. */
  datatype Gate = Gate(cancelled: bool, slot: bool, polls: seq<Poll>)

  datatype Reply =
    | TransportError(cancelled: bool)
    | NilResponse
    | ReadError(cancelled: bool)
    | TooLarge
    | Answer(status: int, rateLimited: bool, retryAfter: int, now: int)

  /** Everything one attempt depends on. */
  datatype Try = Try(backedOff: bool, replayed: bool, budget: Gate, host: Gate, endpoint: Gate, signed: bool, reply: Reply)

  datatype Refusal = Rejected | BackoffCancelled | NotReplayable | NotAcquired | NotSigned | Cancelled | Transport | Malformed

  /** Refusals that happen before the transport is asked. */
  predicate BeforeTransport(r: Refusal) { r !in {Cancelled, Transport, Malformed} }

  predicate Retryable(r: Reply) {
    match r
    case TransportError(cancelled) => !cancelled
    case ReadError(cancelled) => !cancelled
    case Answer(status, rateLimited, _, _) => rateLimited || status >= 500
    case _ => false
  }

  /** Until when the rate-limited answers among some attempts ask to wait. */
  function CoolingDue(tries: seq<Try>): Option<int> {
    if |tries| == 0 then None
    else
      var earlier, reply := CoolingDue(tries[..|tries| - 1]), tries[|tries| - 1].reply;
      if !(reply.Answer? && reply.rateLimited) then earlier
      else
        var due := reply.now + Later(MINIMUM_COOLDOWN, reply.retryAfter);
        Some(if earlier.Some? then Later(earlier.value, due) else due)
  }

  /** It covers every rate-limited answer. */
  lemma {:induction false} CoolingCovers(tries: seq<Try>, i: nat)
    requires i < |tries| && tries[i].reply.Answer? && tries[i].reply.rateLimited
    ensures CoolingDue(tries).Some?
    ensures CoolingDue(tries).value >= tries[i].reply.now + Later(MINIMUM_COOLDOWN, tries[i].reply.retryAfter)
  {
    if i < |tries| - 1 {
      CoolingCovers(tries[..|tries| - 1], i);
    }
  }

  class Client {
    const first: RateLimiter?
    const retry: RateLimiter?
    const host: RateLimiter?
    const endpoint: RateLimiter?
    const maxRetries: int

    constructor (first: RateLimiter?, retry: RateLimiter?, host: RateLimiter?, endpoint: RateLimiter?, maxRetries: int)
      ensures this.first == first && this.retry == retry && this.host == host && this.endpoint == endpoint
      ensures this.maxRetries == maxRetries
    {
      this.first, this.retry, this.host, this.endpoint, this.maxRetries := first, retry, host, endpoint, maxRetries;
    }

    static function One(l: RateLimiter?): set<RateLimiter> { if l == null then {} else {l} }

    function Limiters(): set<RateLimiter> { One(first) + One(retry) + One(host) + One(endpoint) }

    ghost predicate Valid()
      reads Limiters()
    {
      forall l :: l in Limiters() ==> l.Valid()
    }

    function Retries(): (n: nat)
      ensures n <= 2
    {
      if maxRetries < 0 then 0 else if maxRetries > 2 then 2 else maxRetries
    }

    static function Add(chain: seq<RateLimiter>, l: RateLimiter?): seq<RateLimiter> {
      if l == null || l in chain then chain else chain + [l]
    }

    /** The distinct limiters one attempt must hold, in acquisition order. */
    function Chain(firstAttempt: bool): seq<RateLimiter> {
      Add(Add(Add([], if firstAttempt then first else retry), host), endpoint)
    }

    ghost predicate IsChain(chain: seq<RateLimiter>) {
      NoDuplicates(chain) && forall l :: l in chain ==> l in Limiters()
    }

    /** Exactly one slot of every gated limiter of the chain is held beyond what was held before. */
    ghost predicate Holds(before: map<RateLimiter, nat>, chain: seq<RateLimiter>)
      reads Limiters()
    {
      forall l :: l in Limiters() ==> l in before && l.held == before[l] + if l in chain && l.gated then 1 else 0
    }

    /** Nothing at a limiter stands in the caller's way: a slot is free and some poll is admitted, none cancelled. */
    static ghost predicate Opens(l: RateLimiter?, gate: Gate)
      reads One(l)
    {
      l == null || OpenAt(l.State(), l.gated, gate)
    }

    static ghost predicate OpenAt(s: Pace, gated: bool, gate: Gate) {
      && !gate.cancelled && (gate.slot || !gated) && (forall i :: 0 <= i < |gate.polls| ==> !gate.polls[i].cancelled)
      && exists i :: 0 <= i < |gate.polls| && Admits(s, gate.polls[i])
    }

    function Budget(firstAttempt: bool): RateLimiter? { if firstAttempt then first else retry }

    ghost predicate AllOpen(firstAttempt: bool, try: Try)
      reads Limiters()
    {
      Opens(Budget(firstAttempt), try.budget) && Opens(host, try.host) && Opens(endpoint, try.endpoint)
    }

    method AcquireOne(l: RateLimiter?, gate: Gate, chain: seq<RateLimiter>, ghost before: map<RateLimiter, nat>)
      returns (ok: bool, grown: seq<RateLimiter>)
      requires Valid() && IsChain(chain) && Holds(before, chain) && (l != null ==> l in Limiters())
      modifies Limiters()
      ensures Valid() && IsChain(grown) && Holds(before, grown)
      ensures grown == if ok then Add(chain, l) else chain
      ensures forall k :: k in Limiters() ==> k.cooldownUntil == old(k.cooldownUntil)
      ensures forall k :: k in Limiters() && k != l ==> k.State() == old(k.State())
      ensures l != null && l in chain ==> ok && l.State() == old(l.State())
      ensures !ok ==> !old(Opens(l, gate)) && !Opens(l, gate)
    {
      if l == null {
        return true, chain;
      }
      if l in chain {
        return true, chain;
      }
      var granted := l.Acquire(gate.cancelled, gate.slot, gate.polls);
      if !granted {
        return false, chain;
      }
      return true, chain + [l];
    }

    method ReleaseAll(chain: seq<RateLimiter>, ghost before: map<RateLimiter, nat>)
      requires Valid() && IsChain(chain) && Holds(before, chain)
      modifies Limiters()
      ensures Valid() && Holds(before, [])
      ensures forall k :: k in Limiters() ==> k.State() == old(k.State())
    {
      var i := |chain|;
      assert chain[..i] == chain;
      while i > 0
        invariant 0 <= i <= |chain| && Valid() && Holds(before, chain[..i])
        invariant forall k :: k in Limiters() ==> k.State() == old(k.State())
      {
        i := i - 1;
        assert chain[i] in chain[..i + 1] && chain[i] in Limiters();
        chain[i].Release();
        ReleasedOne(chain, i);
      }
    }

    lemma EmptyChain()
      ensures IsChain([])
    {
    }

    lemma ReleasedOne(chain: seq<RateLimiter>, i: nat)
      requires i < |chain| && NoDuplicates(chain)
      ensures chain[i] !in chain[..i]
      ensures forall l :: l != chain[i] ==> (l in chain[..i] <==> l in chain[..i + 1])
    {
      assert chain[..i + 1] == chain[..i] + [chain[i]];
    }

    /** Budget, host, endpoint, in that order; whatever was taken is given back on failure. */
    method Acquire(firstAttempt: bool, try: Try, ghost before: map<RateLimiter, nat>) returns (chain: Option<seq<RateLimiter>>)
      requires Valid() && Holds(before, [])
      modifies Limiters()
      ensures Valid()
      ensures chain.None? ==> Holds(before, [])
      ensures chain.Some? ==> chain.value == Chain(firstAttempt) && IsChain(chain.value) && Holds(before, chain.value)
      ensures forall k :: k in Limiters() ==> k.cooldownUntil == old(k.cooldownUntil)
      ensures chain.None? ==> !old(AllOpen(firstAttempt, try)) && !AllOpen(firstAttempt, try)
    {
      hide OpenAt, IsChain, Holds, Valid;
      EmptyChain();
      var budget := if firstAttempt then first else retry;
      var ok, held := AcquireOne(budget, try.budget, [], before);
      if !ok {
        return None;
      }
      ok, held := AcquireOne(host, try.host, held, before);
      if !ok {
        ReleaseAll(held, before);
        return None;
      }
      if endpoint != host {
        ok, held := AcquireOne(endpoint, try.endpoint, held, before);
        if !ok {
          ReleaseAll(held, before);
          return None;
        }
      }
      return Some(held);
    }

    /** The transport runs only while every slot of the attempt is held. */
    method RoundTrip(firstAttempt: bool, reply: Reply, ghost before: map<RateLimiter, nat>) returns (r: Reply)
      requires Holds(before, Chain(firstAttempt))
      ensures r == reply
    {
      return reply;
    }

    method OnRateLimited(now: int, retryAfter: int)
      requires Valid()
      modifies Limiters()
      ensures Valid() && forall l :: l in Limiters() ==> l.held == old(l.held)
      ensures host != null ==> host.State() == Limited(old(host.State()), now, retryAfter)
      ensures endpoint != null ==> endpoint.State() == Limited(old(endpoint.State()), now, retryAfter)
      ensures forall l :: l in Limiters() && l != host && l != endpoint ==> l.State() == old(l.State())
    {
      if host != null {
        host.OnRateLimited(now, retryAfter);
      }
      if endpoint != null && endpoint != host {
        endpoint.OnRateLimited(now, retryAfter);
      }
    }

    /** The cooldown a reply leaves: host and endpoint wait after a rate-limited answer, the budgets never do. */
    function CooldownAfter(l: RateLimiter, was: int, reply: Reply): int {
      if reply.Answer? && reply.rateLimited && (l == host || l == endpoint)
      then Later(was, reply.now + Later(MINIMUM_COOLDOWN, reply.retryAfter)) else was
    }

    /** Why an attempt whose limiters are all open can still be refused. */
    static predicate Refuses(error: Refusal, firstAttempt: bool, try: Try) {
      match error
      case BackoffCancelled => !firstAttempt && !try.backedOff
      case NotReplayable => !try.replayed
      case NotSigned => !try.signed
      case _ => false
    }

    static lemma RefusalsAre(firstAttempt: bool, try: Try)
      ensures Refuses(BackoffCancelled, firstAttempt, try) <==> !firstAttempt && !try.backedOff
      ensures Refuses(NotReplayable, firstAttempt, try) <==> !try.replayed
      ensures Refuses(NotSigned, firstAttempt, try) <==> !try.signed
    {
    }

    /** One attempt up to its release: refused before the transport, or answered by it. */
    method Attempt(firstAttempt: bool, try: Try, ghost before: map<RateLimiter, nat>)
      returns (r: Result<Reply, Refusal>)
      requires Valid() && Holds(before, [])
      modifies Limiters()
      ensures Valid() && Holds(before, [])
      ensures r.Success? ==> r.value == try.reply
      ensures r.Failure? ==> BeforeTransport(r.error) && r.error != Rejected
      ensures r.Failure? && r.error == NotAcquired ==> !old(AllOpen(firstAttempt, try)) && !AllOpen(firstAttempt, try)
      ensures r.Failure? && r.error != NotAcquired ==> Refuses(r.error, firstAttempt, try)
      ensures r.Success? ==> (firstAttempt || try.backedOff) && try.replayed && try.signed
      ensures host != null ==>
                var was := old(host.cooldownUntil);
                host.cooldownUntil == if r.Success? then CooldownAfter(host, was, try.reply) else was
      ensures endpoint != null ==>
                var was := old(endpoint.cooldownUntil);
                endpoint.cooldownUntil == if r.Success? then CooldownAfter(endpoint, was, try.reply) else was
    {
      hide AllOpen, Opens, OpenAt, IsChain, Refuses, Valid, Holds, CooldownAfter;
      RefusalsAre(firstAttempt, try);
      if !firstAttempt && !try.backedOff {
        return Failure(BackoffCancelled);
      }
      if !try.replayed {
        return Failure(NotReplayable);
      }
      var chain := Acquire(firstAttempt, try, before);
      if chain.None? {
        return Failure(NotAcquired);
      }
      if !try.signed {
        ReleaseAll(chain.value, before);
        return Failure(NotSigned);
      }
      var reply := Exchange(firstAttempt, try.reply, chain.value, before);
      return Success(reply);
    }

    /** The transport, the cooldown it may ask for, and the release. */
    method Exchange(firstAttempt: bool, answer: Reply, chain: seq<RateLimiter>, ghost before: map<RateLimiter, nat>) returns (reply: Reply)
      requires Valid() && chain == Chain(firstAttempt) && IsChain(chain) && Holds(before, chain)
      modifies Limiters()
      ensures Valid() && Holds(before, []) && reply == answer
      ensures host != null ==> host.cooldownUntil == CooldownAfter(host, old(host.cooldownUntil), answer)
      ensures endpoint != null ==> endpoint.cooldownUntil == CooldownAfter(endpoint, old(endpoint.cooldownUntil), answer)
    {
      reply := RoundTrip(firstAttempt, answer, before);
      if reply.Answer? && reply.rateLimited {
        OnRateLimited(reply.now, reply.retryAfter);
      }
      ReleaseAll(chain, before);
    }

    static ghost function CooldownOf(l: RateLimiter?): int
      reads One(l)
    {
      if l == null then 0 else l.cooldownUntil
    }

    /** Host and endpoint grant nothing before an instant. */
    ghost predicate CooledUntil(due: Option<int>, hostAt: int, endpointAt: int) {
      due.Some? ==> (host != null ==> hostAt >= due.value) && (endpoint != null ==> endpointAt >= due.value)
    }

    lemma CooledNext(earlier: seq<Try>, try: Try, answered: bool, hostWas: int, endpointWas: int)
      requires CooledUntil(CoolingDue(earlier), hostWas, endpointWas)
      requires host != null ==> host.cooldownUntil == if answered then CooldownAfter(host, hostWas, try.reply) else hostWas
      requires endpoint != null ==> endpoint.cooldownUntil == if answered then CooldownAfter(endpoint, endpointWas, try.reply) else endpointWas
      ensures CooledUntil(CoolingDue(if answered then earlier + [try] else earlier), CooldownOf(host), CooldownOf(endpoint))
    {
      assert (earlier + [try])[..|earlier|] == earlier;
    }

    /** What a reply becomes when it is not retried. */
    static function Conclude(reply: Reply): Result<Reply, Refusal> {
      match reply
      case TransportError(cancelled) => Failure(if cancelled then Cancelled else Transport)
      case ReadError(cancelled) => Failure(if cancelled then Cancelled else Transport)
      case NilResponse => Failure(Malformed)
      case TooLarge => Failure(Malformed)
      case Answer(_, _, _, _) => Success(reply)
    }

    /** The first two attempts are answered with a server error. */
    static predicate FailsTwice(tries: seq<Try>) {
      |tries| >= 2 && forall i :: 0 <= i < 2 ==> tries[i].reply.Answer? && tries[i].reply.status >= 500
    }

    /** An answer that is neither a server error nor rate-limited. */
    static predicate Settles(reply: Reply) { reply.Answer? && reply.status < 500 && !reply.rateLimited }

    lemma RetriesMean()
      ensures Retries() == 2 <==> maxRetries >= 2
      ensures Retries() == 1 <==> maxRetries == 1
      ensures Retries() == 0 <==> maxRetries <= 0
    {
    }

    static lemma RetryableMeans(tries: seq<Try>)
      ensures FailsTwice(tries) ==> Retryable(tries[0].reply) && Retryable(tries[1].reply)
      ensures |tries| > 0 && Settles(tries[0].reply) ==> !Retryable(tries[0].reply) && Conclude(tries[0].reply) == Success(tries[0].reply)
    {
    }

    /**
     * At most three attempts, each retried only for a reason that allows it. Every exit, whether an error, a
     * cancellation or an answer, leaves the held count of every limiter as it found it.
     */
    method Do(admitted: bool, tries: seq<Try>) returns (r: Result<Reply, Refusal>, attempts: nat)
      requires Valid() && |tries| == Retries() + 1
      modifies Limiters()
      ensures Valid() && forall l :: l in Limiters() ==> l.held == old(l.held)
      ensures attempts <= Retries() + 1 <= 3
      ensures forall i :: 0 <= i < attempts - 1 ==> Retryable(tries[i].reply)
      ensures (r.Failure? && BeforeTransport(r.error)) || attempts > 0
      ensures !(r.Failure? && BeforeTransport(r.error)) ==>
                && r == Conclude(tries[attempts - 1].reply)
                && (Retryable(tries[attempts - 1].reply) ==> attempts == Retries() + 1)
      ensures r.Failure? && BeforeTransport(r.error) && attempts > 0 ==> Retryable(tries[attempts - 1].reply)
      ensures !(r.Failure? && BeforeTransport(r.error)) && maxRetries >= 2 && FailsTwice(tries) ==> attempts == 3
      ensures !(r.Failure? && BeforeTransport(r.error)) && Settles(tries[0].reply) ==> attempts == 1 && r == Success(tries[0].reply)
      ensures !admitted <==> r == Failure(Rejected)
      ensures !admitted ==> attempts == 0
      ensures r.Failure? && BeforeTransport(r.error) && admitted ==>
                && attempts < |tries|
                && if r.error == NotAcquired then !AllOpen(attempts == 0, tries[attempts]) else Refuses(r.error, attempts == 0, tries[attempts])
      ensures admitted && old(AllOpen(true, tries[0])) && tries[0].replayed && tries[0].signed ==> attempts > 0
      ensures CooledUntil(CoolingDue(tries[..attempts]), CooldownOf(host), CooldownOf(endpoint))
    {
      hide CoolingDue, CooledUntil, CooldownAfter, Valid, Holds, Limiters, One, Retryable, Conclude, BeforeTransport, AllOpen, Retries,
           FailsTwice, Settles;
      RetryableMeans(tries);
      RetriesMean();
      attempts := 0;
      NothingDue(tries);
      if !admitted {
        return Failure(Rejected), attempts;
      }
      ghost var before := map l | l in Limiters() :: l.held;
      NothingHeld();
      while true
        invariant Valid() && Holds(before, []) && attempts <= Retries()
        invariant forall i :: 0 <= i < attempts ==> Retryable(tries[i].reply)
        invariant attempts == 0 ==> AllOpen(true, tries[0]) == old(AllOpen(true, tries[0]))
        invariant CooledUntil(CoolingDue(tries[..attempts]), CooldownOf(host), CooldownOf(endpoint))
        decreases Retries() - attempts
      {
        ghost var hostWas, endpointWas := CooldownOf(host), CooldownOf(endpoint);
        var answered := Attempt(attempts == 0, tries[attempts], before);
        HoldsNothing(before);
        CooledNext(tries[..attempts], tries[attempts], answered.Success?, hostWas, endpointWas);
        if answered.Failure? {
          return answered, attempts;
        }
        assert tries[..attempts + 1] == tries[..attempts] + [tries[attempts]];
        attempts := attempts + 1;
        if attempts > Retries() || !Retryable(answered.value) {
          Concluded(answered.value);
          return Conclude(answered.value), attempts;
        }
      }
    }

    lemma NothingHeld()
      ensures Holds(map l | l in Limiters() :: l.held, [])
    {
    }

    lemma HoldsNothing(before: map<RateLimiter, nat>)
      requires Holds(before, [])
      ensures forall l :: l in Limiters() ==> l in before && l.held == before[l]
    {
    }

    lemma NothingDue(tries: seq<Try>)
      ensures CooledUntil(CoolingDue(tries[..0]), CooldownOf(host), CooldownOf(endpoint)) && BeforeTransport(Rejected)
    {
    }

    static lemma Concluded(reply: Reply)
      ensures var r := Conclude(reply); r.Success? || !BeforeTransport(r.error)
    {
    }
  }

  /** No attempt lists a limiter twice, and it lists everything configured for it. */
  lemma ChainIsDistinct(c: Client, firstAttempt: bool)
    ensures NoDuplicates(c.Chain(firstAttempt)) && |c.Chain(firstAttempt)| <= 3
    ensures forall l: RateLimiter :: l in c.Chain(firstAttempt) <==>
              l == (if firstAttempt then c.first else c.retry) || l == c.host || l == c.endpoint
  {
  }
}
