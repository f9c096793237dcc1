/** Pool generations: telling a connection from before a pool was cleared from one after
    (driver/src/cmap/conn.rs:373-408, driver/src/cmap/establish.rs:116-179,
    driver/src/cmap/conn/pooled.rs:111-134, driver/src/cmap/worker.rs:493-533, 552-573, 608-630).
 */
module Generations {
  import opened Wrappers

  type Service = nat

  datatype PoolGeneration = Normal(generation: nat) | LoadBalanced(services: map<Service, nat>)

  /** `Unknown` is a load-balanced connection whose handshake named no service. */
  datatype ConnectionGeneration = Plain(generation: nat) | OfService(generation: nat, service: Service) | Unknown

  function Current(p: PoolGeneration, s: Service): nat {
    if p.LoadBalanced? && s in p.services then p.services[s] else 0
  }

  predicate IsStale(c: ConnectionGeneration, p: PoolGeneration) {
    match c
    case Plain(g) => p.Normal? && g != p.generation
    case OfService(g, s) => p.LoadBalanced? && g != Current(p, s)
    case Unknown => false
  }

  // ---------------------------------------------------------------------
  // Establishing a connection
  // ---------------------------------------------------------------------

  /** How the handshake went: whether a stream was made, whether a hello reply came and which service it
      named, and whether the rest succeeded. A service is known only from a hello reply. */
  datatype Handshake = Handshake(stream: bool, hello: bool, service: Option<Service>, done: bool)

  datatype EstablishError = PreHello(pool: PoolGeneration) | PostHello(generation: ConnectionGeneration)

  function GenerationFrom(snapshot: PoolGeneration, service: Option<Service>): ConnectionGeneration {
    match snapshot
    case Normal(g) => Plain(g)
    case LoadBalanced(_) =>
      if service.Some? then OfService(Current(snapshot, service.value), service.value) else Unknown
  }

  /** Every established connection has a generation, taken from the snapshot of when it was requested; a
      failure says which connections it is about. */
  method EstablishConnection(snapshot: PoolGeneration, h: Handshake)
    returns (r: Result<ConnectionGeneration, EstablishError>)
    requires h.service.Some? ==> h.hello
    requires h.hello || h.done ==> h.stream
    requires h.done ==> h.hello
    ensures r.Ok? <==> h.done && (snapshot.Normal? || h.service.Some?)
    ensures r.Ok? ==> r.value == GenerationFrom(snapshot, h.service) && !r.value.Unknown?
    ensures r.Err? ==> r.error == if h.hello then PostHello(GenerationFrom(snapshot, h.service)) else PreHello(snapshot)
  {
    if !h.stream {
      return Err(PreHello(snapshot));
    }
    var generation := if snapshot.Normal? then Plain(snapshot.generation) else Unknown;
    match snapshot {
      case Normal(_) =>
      case LoadBalanced(services) =>
        if h.service.Some? {
          var service := h.service.value;
          generation := OfService(if service in services then services[service] else 0, service);
        } else if h.done {
          return Err(PostHello(generation));
        }
    }
    if !h.done {
      return Err(if !h.hello then PreHello(snapshot) else PostHello(generation));
    }
    return Ok(generation);
  }

  // ---------------------------------------------------------------------
  // The pool
  // ---------------------------------------------------------------------

  /** A connection is named by the position of the action that requested it. */
  datatype Pool = Pool(
    generation: PoolGeneration,
    open: map<Service, nat>,
    pending: map<nat, PoolGeneration>,
    connections: map<nat, ConnectionGeneration>)

  datatype Action =
    | Request
    | Established(id: nat, service: Option<Service>)
    | EstablishFailed(id: nat)
    | Clear(service: Option<Service>)
    | Close(id: nat)

  function Cleared(p: PoolGeneration, service: Option<Service>): PoolGeneration {
    match p
    case Normal(g) => if service.None? then Normal(g + 1) else p
    case LoadBalanced(m) => if service.Some? then LoadBalanced(m[service.value := Current(p, service.value) + 1]) else p
  }

  function CountUp(open: map<Service, nat>, c: ConnectionGeneration): map<Service, nat> {
    if c.OfService? then open[c.service := 1 + if c.service in open then open[c.service] else 0] else open
  }

  /** The last connection to a service takes the service's generation with it. */
  predicate Forgets(p: Pool, c: ConnectionGeneration) {
    p.generation.LoadBalanced? && c.OfService? && c.service in p.open && p.open[c.service] == 1
  }

  function Closed(p: Pool, id: nat): Pool
    requires id in p.connections
  {
    var c := p.connections[id];
    var q := p.(connections := p.connections - {id});
    if Forgets(p, c) then
      q.(generation := LoadBalanced(p.generation.services - {c.service}), open := p.open - {c.service})
    else if p.generation.LoadBalanced? && c.OfService? && c.service in p.open && p.open[c.service] > 1 then
      q.(open := p.open[c.service := p.open[c.service] - 1])
    else q
  }

  function Step(p: Pool, a: Action, now: nat): Pool {
    match a
    case Request => p.(pending := p.pending[now := p.generation])
    case Established(id, service) =>
      if id in p.pending && !GenerationFrom(p.pending[id], service).Unknown? then
        var c := GenerationFrom(p.pending[id], service);
        p.(pending := p.pending - {id}, connections := p.connections[id := c], open := CountUp(p.open, c))
      else p
    case EstablishFailed(id) => p.(pending := p.pending - {id})
    case Clear(service) => p.(generation := Cleared(p.generation, service))
    case Close(id) => if id in p.connections then Closed(p, id) else p
  }

  function New(loadBalanced: bool): Pool {
    Pool(if loadBalanced then LoadBalanced(map[]) else Normal(0), map[], map[], map[])
  }

  function Run(loadBalanced: bool, actions: seq<Action>): Pool {
    if actions == [] then New(loadBalanced)
    else
      var n := |actions| - 1;
      Step(Run(loadBalanced, actions[..n]), actions[n], n)
  }

  /** How often the pool, or the service, was cleared. */
  function Clears(actions: seq<Action>, service: Option<Service>): nat {
    if actions == [] then 0
    else
      var n := |actions| - 1;
      Clears(actions[..n], service) + if actions[n] == Clear(service) then 1 else 0
  }

  lemma {:induction false} ClearsConcat(a: seq<Action>, b: seq<Action>, service: Option<Service>)
    ensures Clears(a + b, service) == Clears(a, service) + Clears(b, service)
    decreases |b|
  {
    if b == [] {
      assert a + b == a;
    } else {
      var n := |b| - 1;
      ClearsConcat(a, b[..n], service);
      assert (a + b)[..|a| + n] == a + b[..n];
    }
  }

  // ---------------------------------------------------------------------
  // Normal mode
  // ---------------------------------------------------------------------

  predicate NormalInv(p: Pool, actions: seq<Action>) {
    && p.generation == Normal(Clears(actions, None))
    && (forall id | id in p.pending :: id < |actions| && p.pending[id] == Normal(Clears(actions[..id], None)))
    && (forall id | id in p.connections :: id < |actions| && p.connections[id] == Plain(Clears(actions[..id], None)))
  }

  lemma NormalStep(p: Pool, actions: seq<Action>, a: Action)
    requires NormalInv(p, actions)
    ensures NormalInv(Step(p, a, |actions|), actions + [a])
  {
    var all := actions + [a];
    assert all[..|actions|] == actions;
    assert forall id | 0 <= id < |actions| :: all[..id] == actions[..id];
  }

  lemma {:induction false} NormalRuns(actions: seq<Action>)
    ensures NormalInv(Run(false, actions), actions)
    decreases |actions|
  {
    if actions != [] {
      var n := |actions| - 1;
      NormalRuns(actions[..n]);
      NormalStep(Run(false, actions[..n]), actions[..n], actions[n]);
      assert actions[..n] + [actions[n]] == actions;
    }
  }

  /** Without a load balancer, a connection is stale exactly when the pool was cleared after it was requested. */
  lemma StaleMeansCleared(actions: seq<Action>, id: nat)
    requires id in Run(false, actions).connections
    ensures id < |actions|
    ensures var p := Run(false, actions);
            IsStale(p.connections[id], p.generation) <==> Clears(actions[id..], None) > 0
  {
    NormalRuns(actions);
    ClearsConcat(actions[..id], actions[id..], None);
    assert actions[..id] + actions[id..] == actions;
  }

  // ---------------------------------------------------------------------
  // Load-balanced mode
  // ---------------------------------------------------------------------

  /** The open connections to a service. */
  function OpenTo(p: Pool, s: Service): set<nat> {
    set id | id in p.connections && p.connections[id].OfService? && p.connections[id].service == s
  }

  predicate Counted(p: Pool, s: Service) {
    if s in p.open then p.open[s] > 0 && p.open[s] == |OpenTo(p, s)| else OpenTo(p, s) == {}
  }

  ghost predicate AllCounted(p: Pool) {
    && p.generation.LoadBalanced?
    && (forall id | id in p.connections :: p.connections[id].OfService?)
    && (forall s: Service :: Counted(p, s))
  }

  /** The generation before each action and after the last. */
  function History(actions: seq<Action>): (h: seq<PoolGeneration>)
    ensures |h| == |actions| + 1
  {
    (if actions == [] then [] else History(actions[..|actions| - 1])) + [Run(true, actions).generation]
  }

  /** Requests and connections carry what the generation was when they were made. */
  predicate Snapped(p: Pool, h: seq<PoolGeneration>) {
    && p.pending.Keys !! p.connections.Keys
    && (forall id | id in p.pending :: id < |h| - 1 && p.pending[id] == h[id] && p.pending[id].LoadBalanced?)
    && (forall id | id in p.connections ::
          && id < |h| - 1 && p.connections[id].OfService?
          && p.connections[id].generation == Current(h[id], p.connections[id].service))
  }

  lemma CountedAfterOpening(p: Pool, id: nat, c: ConnectionGeneration, s: Service)
    requires Counted(p, s) && id !in p.connections && c.OfService?
    ensures var q := p.(pending := p.pending - {id}, connections := p.connections[id := c], open := CountUp(p.open, c));
            Counted(q, s)
  {
    var q := p.(pending := p.pending - {id}, connections := p.connections[id := c], open := CountUp(p.open, c));
    assert OpenTo(q, s) == if c.service == s then OpenTo(p, s) + {id} else OpenTo(p, s);
  }

  lemma CountedAfterClosing(p: Pool, id: nat, s: Service)
    requires p.generation.LoadBalanced? && id in p.connections && p.connections[id].OfService?
    requires Counted(p, s) && Counted(p, p.connections[id].service)
    ensures Counted(Closed(p, id), s)
  {
    var c, q := p.connections[id], Closed(p, id);
    assert id in OpenTo(p, c.service);
    assert OpenTo(q, s) == if c.service == s then OpenTo(p, s) - {id} else OpenTo(p, s);
  }

  lemma CountedStep(p: Pool, a: Action, now: nat)
    requires AllCounted(p) && p.pending.Keys !! p.connections.Keys
    requires (forall id | id in p.pending :: p.pending[id].LoadBalanced?)
    ensures AllCounted(Step(p, a, now))
  {
    var q := Step(p, a, now);
    forall s: Service
      ensures Counted(q, s)
    {
      assert Counted(p, s);
      if a.Established? && a.id in p.pending && a.service.Some? {
        CountedAfterOpening(p, a.id, GenerationFrom(p.pending[a.id], a.service), s);
      } else if a.Close? && a.id in p.connections {
        assert Counted(p, p.connections[a.id].service);
        CountedAfterClosing(p, a.id, s);
      } else {
        assert OpenTo(q, s) == OpenTo(p, s);
      }
    }
  }

  lemma SnappedStep(p: Pool, h: seq<PoolGeneration>, a: Action, g: PoolGeneration)
    requires |h| > 0 && Snapped(p, h) && p.generation.LoadBalanced? && p.generation == h[|h| - 1]
    ensures Snapped(Step(p, a, |h| - 1), h + [g])
  {
    assert forall i | 0 <= i < |h| :: (h + [g])[i] == h[i];
  }

  lemma {:induction false} BalancedRuns(actions: seq<Action>)
    ensures AllCounted(Run(true, actions)) && Snapped(Run(true, actions), History(actions))
    decreases |actions|
  {
    if actions != [] {
      var n := |actions| - 1;
      var init := actions[..n];
      BalancedRuns(init);
      SnappedStep(Run(true, init), History(init), actions[n], Run(true, actions).generation);
      CountedStep(Run(true, init), actions[n], n);
    } else {
      assert forall s: Service :: OpenTo(New(true), s) == {};
    }
  }

  lemma {:induction false} HistoryAt(actions: seq<Action>, k: nat)
    requires k <= |actions|
    ensures History(actions)[k] == Run(true, actions[..k]).generation
    decreases |actions|
  {
    if k < |actions| {
      HistoryAt(actions[..|actions| - 1], k);
      assert actions[..|actions| - 1][..k] == actions[..k];
    } else {
      assert actions[..k] == actions;
    }
  }

  /** Action `k` closes the last connection to the service. */
  predicate ForgetsAt(actions: seq<Action>, k: nat, s: Service)
    requires k < |actions|
  {
    var p := Run(true, actions[..k]);
    && actions[k].Close? && actions[k].id in p.connections
    && Forgets(p, p.connections[actions[k].id]) && p.connections[actions[k].id].service == s
  }

  /** As long as a service is not forgotten, its generation counts its clears. */
  lemma {:induction false} CurrentCountsClears(actions: seq<Action>, t: nat, s: Service)
    requires t <= |actions| && forall k | t <= k < |actions| :: !ForgetsAt(actions, k, s)
    ensures Current(Run(true, actions).generation, s) ==
            Current(Run(true, actions[..t]).generation, s) + Clears(actions[t..], Some(s))
    decreases |actions|
  {
    if t == |actions| {
      assert actions[..t] == actions;
    } else {
      var n := |actions| - 1;
      var init := actions[..n];
      forall k | t <= k < n
        ensures !ForgetsAt(init, k, s)
      {
        assert init[..k] == actions[..k];
        assert !ForgetsAt(actions, k, s);
      }
      CurrentCountsClears(init, t, s);
      assert init[..t] == actions[..t];
      assert actions[t..][..n - t] == init[t..];
      BalancedRuns(init);
      assert !ForgetsAt(actions, n, s);
      CurrentStep(Run(true, init), actions[n], n, s);
    }
  }

  lemma CurrentStep(p: Pool, a: Action, now: nat, s: Service)
    requires p.generation.LoadBalanced?
    requires !(a.Close? && a.id in p.connections && Forgets(p, p.connections[a.id]) && p.connections[a.id].service == s)
    ensures Current(Step(p, a, now).generation, s) == Current(p.generation, s) + if a == Clear(Some(s)) then 1 else 0
  {
  }

  predicate IsTo(p: Pool, id: nat, s: Service) {
    id in p.connections && p.connections[id].OfService? && p.connections[id].service == s
  }

  /** A service with an open connection is not forgotten. */
  lemma OpenIsNotForgotten(actions: seq<Action>, id: nat, s: Service)
    requires actions != [] && IsTo(Run(true, actions), id, s) && id in Run(true, actions[..|actions| - 1]).connections
    ensures IsTo(Run(true, actions[..|actions| - 1]), id, s)
    ensures !ForgetsAt(actions, |actions| - 1, s)
  {
    var n := |actions| - 1;
    BalancedRuns(actions[..n]);
    StaysOpen(Run(true, actions[..n]), actions[n], n, id, s);
  }

  lemma StaysOpen(p: Pool, a: Action, now: nat, id: nat, s: Service)
    requires AllCounted(p) && p.pending.Keys !! p.connections.Keys
    requires id in p.connections && IsTo(Step(p, a, now), id, s)
    ensures IsTo(p, id, s)
    ensures a.Close? && a.id in p.connections && p.connections[a.id].service == s ==> !Forgets(p, p.connections[a.id])
  {
    if a.Close? && a.id in p.connections && p.connections[a.id].service == s {
      assert Counted(p, s);
      CardinalityAtLeastTwo(OpenTo(p, s), id, a.id);
    }
  }

  lemma CardinalityAtLeastTwo(s: set<nat>, x: nat, y: nat)
    requires x in s && y in s && x != y
    ensures |s| >= 2
  {
    assert |s - {x}| == |s| - 1;
    assert y in s - {x};
  }

  /** The service was not forgotten between the request for a connection and the moment it was there. */
  predicate KeptWhilePending(actions: seq<Action>, id: nat, s: Service) {
    forall k | 0 <= k < |actions| && id <= k && id in Run(true, actions[..k + 1]).pending :: !ForgetsAt(actions, k, s)
  }

  /** A service is kept as long as a connection to it is open, so being kept while pending is enough. */
  lemma {:induction false} KeptAllAlong(actions: seq<Action>, id: nat, s: Service, k: nat)
    requires IsTo(Run(true, actions), id, s) && KeptWhilePending(actions, id, s) && id <= k < |actions|
    ensures !ForgetsAt(actions, k, s)
    decreases |actions|
  {
    var n := |actions| - 1;
    var init := actions[..n];
    if id in Run(true, init).connections {
      OpenIsNotForgotten(actions, id, s);
      if k < n {
        KeptBefore(actions, id, s);
        KeptAllAlong(init, id, s, k);
        ForgetsInPrefix(actions, k, s);
      }
    } else {
      JustEstablished(Run(true, init), actions[n], n, id);
      if k < n {
        PendingSinceRequest(init, id, k + 1);
        assert init[..k + 1] == actions[..k + 1];
      }
    }
  }

  lemma ForgetsInPrefix(actions: seq<Action>, k: nat, s: Service)
    requires k < |actions| - 1
    ensures ForgetsAt(actions[..|actions| - 1], k, s) == ForgetsAt(actions, k, s)
  {
    assert actions[..|actions| - 1][..k] == actions[..k];
  }

  lemma KeptBefore(actions: seq<Action>, id: nat, s: Service)
    requires actions != [] && KeptWhilePending(actions, id, s)
    ensures KeptWhilePending(actions[..|actions| - 1], id, s)
  {
    var init := actions[..|actions| - 1];
    forall k | 0 <= k < |init| && id <= k && id in Run(true, init[..k + 1]).pending
      ensures !ForgetsAt(init, k, s)
    {
      assert init[..k + 1] == actions[..k + 1];
      ForgetsInPrefix(actions, k, s);
    }
  }

  lemma JustEstablished(p: Pool, a: Action, now: nat, id: nat)
    requires id !in p.connections && id in Step(p, a, now).connections
    ensures a.Established? && id in p.pending
  {
  }

  lemma {:induction false} PendingSinceRequest(actions: seq<Action>, id: nat, k: nat)
    requires id in Run(true, actions).pending && id < k <= |actions|
    ensures id in Run(true, actions[..k]).pending
    decreases |actions|
  {
    var n := |actions| - 1;
    if k == |actions| {
      assert actions[..k] == actions;
    } else {
      assert id in Run(true, actions[..n]).pending;
      PendingSinceRequest(actions[..n], id, k);
      assert actions[..n][..k] == actions[..k];
    }
  }

  /** Behind a load balancer: a connection whose service was kept while it was pending is stale exactly
      when the service was cleared after the connection was requested. */
  lemma StaleMeansServiceCleared(actions: seq<Action>, id: nat, s: Service)
    requires IsTo(Run(true, actions), id, s) && KeptWhilePending(actions, id, s)
    ensures id < |actions|
    ensures var p := Run(true, actions);
            IsStale(p.connections[id], p.generation) <==> Clears(actions[id..], Some(s)) > 0
  {
    BalancedRuns(actions);
    HistoryAt(actions, id);
    forall k | id <= k < |actions|
      ensures !ForgetsAt(actions, k, s)
    {
      KeptAllAlong(actions, id, s, k);
    }
    CurrentCountsClears(actions, id, s);
  }

  /** When the service was last forgotten, from action `from` on. */
  function LastForgotten(actions: seq<Action>, from: nat, s: Service): (f: Option<nat>)
    ensures f.Some? ==> from <= f.value < |actions|
  {
    if |actions| <= from then None
    else
      var n := |actions| - 1;
      if ForgetsAt(actions, n, s) then Some(n) else LastForgotten(actions[..n], from, s)
  }

  lemma {:induction false} LastForgottenIsLast(actions: seq<Action>, from: nat, s: Service, k: nat)
    requires from <= k < |actions|
    ensures LastForgotten(actions, from, s).None? ==> !ForgetsAt(actions, k, s)
    ensures LastForgotten(actions, from, s).Some? ==>
              var f := LastForgotten(actions, from, s).value;
              ForgetsAt(actions, f, s) && (f < k ==> !ForgetsAt(actions, k, s))
    decreases |actions|
  {
    var n := |actions| - 1;
    if !ForgetsAt(actions, n, s) && from < n {
      var f := LastForgotten(actions[..n], from, s);
      LastForgottenIsLast(actions[..n], from, s, if k < n then k else from);
      if k < n { ForgetsInPrefix(actions, k, s); }
      if f.Some? { ForgetsInPrefix(actions, f.value, s); }
    }
  }

  /** A forgotten service starts again at zero. */
  lemma ForgottenIsZero(actions: seq<Action>, f: nat, s: Service)
    requires f < |actions| && ForgetsAt(actions, f, s)
    ensures Current(Run(true, actions[..f + 1]).generation, s) == 0
  {
    assert actions[..f + 1][..f] == actions[..f];
  }

  /** What the current generation of a service counts: the clears since it was last forgotten, or, if it
      was not since action `id`, those since then on top of what it was. */
  lemma CurrentSince(actions: seq<Action>, id: nat, s: Service)
    requires id < |actions|
    ensures Current(Run(true, actions).generation, s) ==
            match LastForgotten(actions, id, s)
            case None => Current(Run(true, actions[..id]).generation, s) + Clears(actions[id..], Some(s))
            case Some(f) => Clears(actions[f + 1..], Some(s))
  {
    LastForgottenIsLast(actions, id, s, id);
    var t := match LastForgotten(actions, id, s) case None => id case Some(f) => f + 1;
    forall k | t <= k < |actions|
      ensures !ForgetsAt(actions, k, s)
    {
      LastForgottenIsLast(actions, id, s, k);
    }
    CurrentCountsClears(actions, t, s);
    if t > id { ForgottenIsZero(actions, t - 1, s); }
  }

  /** Behind a load balancer, in every run: if the service was not forgotten since the connection was
      requested, the connection is stale exactly when the service was cleared since then. Otherwise it is
      stale exactly when the service's generation at the request differs from the number of clears since
      the service was last forgotten. */
  lemma StaleExactlyWhen(actions: seq<Action>, id: nat, s: Service)
    requires IsTo(Run(true, actions), id, s)
    ensures id < |actions|
    ensures var p := Run(true, actions);
            IsStale(p.connections[id], p.generation) <==>
              match LastForgotten(actions, id, s)
              case None => Clears(actions[id..], Some(s)) > 0
              case Some(f) => Current(Run(true, actions[..id]).generation, s) != Clears(actions[f + 1..], Some(s))
  {
    BalancedRuns(actions);
    OwnGeneration(actions, id, s);
    CurrentSince(actions, id, s);
    LastForgottenIsLast(actions, id, s, id);
  }

  /** The connection is taken for stale exactly when its service was cleared after the request, now and
      after anything that may still happen while it is open. */
  ghost predicate JudgedRightly(actions: seq<Action>, id: nat, s: Service) {
    forall more: seq<Action> :: JudgedRightlyAfter(actions, more, id, s)
  }

  predicate JudgedRightlyAfter(actions: seq<Action>, more: seq<Action>, id: nat, s: Service) {
    var p := Run(true, actions + more);
    IsTo(p, id, s) && id <= |actions| ==>
      (IsStale(p.connections[id], p.generation) <==> Clears(actions[id..] + more, Some(s)) > 0)
  }

  /** While a connection is open the generation of its service counts on. */
  lemma {:induction false} OpenCountsOn(actions: seq<Action>, more: seq<Action>, id: nat, s: Service)
    requires IsTo(Run(true, actions), id, s) && IsTo(Run(true, actions + more), id, s)
    ensures var p, q := Run(true, actions), Run(true, actions + more);
            && q.connections[id] == p.connections[id]
            && Current(q.generation, s) == Current(p.generation, s) + Clears(more, Some(s))
    decreases |more|
  {
    var all := actions + more;
    if more == [] {
      assert all == actions;
    } else {
      var n := |more| - 1;
      var init := actions + more[..n];
      assert all[..|all| - 1] == init && all[|all| - 1] == more[n];
      OpenBefore(actions, more[..n], more[n], id);
      OpenIsNotForgotten(all, id, s);
      OpenCountsOn(actions, more[..n], id, s);
      BalancedRuns(init);
      CurrentStep(Run(true, init), more[n], |init|, s);
      SameConnection(Run(true, init), more[n], |init|, id);
    }
  }

  lemma SameConnection(p: Pool, a: Action, now: nat, id: nat)
    requires id in p.connections && p.pending.Keys !! p.connections.Keys && id in Step(p, a, now).connections
    ensures Step(p, a, now).connections[id] == p.connections[id]
  {
  }

  /** A connection that is open now and was open before was open in between. */
  lemma OpenBefore(actions: seq<Action>, more: seq<Action>, a: Action, id: nat)
    requires id in Run(true, actions).connections && id in Run(true, actions + more + [a]).connections
    ensures id in Run(true, actions + more).connections
  {
    var init := actions + more;
    assert (init + [a])[..|init|] == init && init[..|actions|] == actions;
    BalancedRuns(actions);
    if id !in Run(true, init).connections {
      JustEstablished(Run(true, init), a, |init|, id);
      PendingSinceRequest(init, id, |actions|);
    }
  }

  function ClearedAgain(s: Service, m: nat): seq<Action> { seq(m, _ => Clear(Some(s))) }

  lemma {:induction false} ClearingCounts(s: Service, m: nat)
    ensures Clears(ClearedAgain(s, m), Some(s)) == m
  {
    if m > 0 {
      ClearingCounts(s, m - 1);
      assert ClearedAgain(s, m)[..m - 1] == ClearedAgain(s, m - 1);
    }
  }

  lemma {:induction false} ClearingKeepsOpen(actions: seq<Action>, s: Service, m: nat)
    ensures Run(true, actions + ClearedAgain(s, m)).connections == Run(true, actions).connections
    decreases m
  {
    var all := actions + ClearedAgain(s, m);
    if m == 0 {
      assert all == actions;
    } else {
      ClearingKeepsOpen(actions, s, m - 1);
      assert all == actions + ClearedAgain(s, m - 1) + [Clear(Some(s))];
      RunOneMore(actions + ClearedAgain(s, m - 1), Clear(Some(s)));
    }
  }

  lemma RunOneMore(actions: seq<Action>, a: Action)
    ensures Run(true, actions + [a]) == Step(Run(true, actions), a, |actions|)
  {
    assert (actions + [a])[..|actions|] == actions;
  }

  /** How a continuation is judged, in numbers. */
  lemma JudgedAfter(actions: seq<Action>, more: seq<Action>, id: nat, s: Service)
    requires IsTo(Run(true, actions), id, s) && IsTo(Run(true, actions + more), id, s)
    ensures id < |actions|
    ensures var p := Run(true, actions);
            JudgedRightlyAfter(actions, more, id, s) <==>
            (p.connections[id].generation != Current(p.generation, s) + Clears(more, Some(s)) <==>
             Clears(actions[id..], Some(s)) + Clears(more, Some(s)) > 0)
  {
    BalancedRuns(actions);
    BalancedRuns(actions + more);
    OpenCountsOn(actions, more, id, s);
    ClearsConcat(actions[id..], more, Some(s));
  }

  /** Exactly the connections that are judged rightly. Those whose service was not forgotten since the
      request are. Of the others, one whose service was not cleared is if the service stood at zero at the
      request; one whose service was cleared is if the service stood below the clears since it was forgotten. */
  lemma JudgedRightlyExactlyWhen(actions: seq<Action>, id: nat, s: Service)
    requires IsTo(Run(true, actions), id, s) && id < |actions|
    ensures var own, clears := Current(Run(true, actions[..id]).generation, s), Clears(actions[id..], Some(s));
            JudgedRightly(actions, id, s) <==>
              match LastForgotten(actions, id, s)
              case None => true
              case Some(f) => if clears == 0 then own == 0 else own < Clears(actions[f + 1..], Some(s))
  {
    OwnGeneration(actions, id, s);
    CurrentSince(actions, id, s);
    RightlyInNumbers(actions, id, s);
    LastForgottenIsLast(actions, id, s, id);
    if LastForgotten(actions, id, s).Some? {
      ClearsSince(actions, id, LastForgotten(actions, id, s).value + 1, s);
    }
  }

  /** A connection carries the generation its service had when it was requested. */
  lemma OwnGeneration(actions: seq<Action>, id: nat, s: Service)
    requires IsTo(Run(true, actions), id, s)
    ensures id < |actions|
    ensures Run(true, actions).connections[id].generation == Current(Run(true, actions[..id]).generation, s)
  {
    BalancedRuns(actions);
    HistoryAt(actions, id);
  }

  lemma ClearsSince(actions: seq<Action>, t: nat, t': nat, s: Service)
    requires t <= t' <= |actions|
    ensures Clears(actions[t'..], Some(s)) <= Clears(actions[t..], Some(s))
  {
    ClearsConcat(actions[t..t'], actions[t'..], Some(s));
    assert actions[t..t'] + actions[t'..] == actions[t..];
  }

  lemma RightlyInNumbers(actions: seq<Action>, id: nat, s: Service)
    requires IsTo(Run(true, actions), id, s) && id < |actions|
    ensures var p := Run(true, actions);
            var own, current := p.connections[id].generation, Current(p.generation, s);
            JudgedRightly(actions, id, s) <==>
            if Clears(actions[id..], Some(s)) == 0 then own == current else own < current
  {
    var p := Run(true, actions);
    var own, current, clears := p.connections[id].generation, Current(p.generation, s), Clears(actions[id..], Some(s));
    if if clears == 0 then own == current else own < current {
      forall more: seq<Action>
        ensures JudgedRightlyAfter(actions, more, id, s)
      {
        if IsTo(Run(true, actions + more), id, s) { JudgedAfter(actions, more, id, s); }
      }
    } else {
      var m := if own >= current then own - current else 0;
      var more := ClearedAgain(s, if clears == 0 then 0 else m);
      ClearingCounts(s, |more|);
      ClearingKeepsOpen(actions, s, |more|);
      JudgedAfter(actions, more, id, s);
      assert !JudgedRightlyAfter(actions, more, id, s);
    }
  }

  // ---------------------------------------------------------------------
  // A run in which a service is forgotten while a connection is pending
  // ---------------------------------------------------------------------

  const EARLY := [Request, Established(0, Some(7)), Request]

  const FORGETTING := EARLY + [Clear(Some(7))] + [Close(0)] + [Established(2, Some(7))]

  /** A connection is open and another one is on its way. */
  const TWO := Pool(LoadBalanced(map[]), map[7 := 1], map[2 := LoadBalanced(map[])], map[0 := OfService(0, 7)])

  lemma OneOpenOnePending()
    ensures Run(true, EARLY) == TWO
  {
    var p1 := Step(New(true), Request, 0);
    assert p1.pending == map[0 := LoadBalanced(map[])];
    var p2 := Step(p1, Established(0, Some(7)), 1);
    assert p2.pending == map[] && p2.connections == map[0 := OfService(0, 7)] && p2.open == map[7 := 1];
    assert EARLY == [] + [Request] + [Established(0, Some(7))] + [Request];
    RunOneMore([], Request);
    RunOneMore([] + [Request], Established(0, Some(7)));
    RunOneMore([] + [Request] + [Established(0, Some(7))], Request);
  }

  /** The service is cleared while a second connection is on its way, and the first is closed: the second
      passes for fresh. */
  lemma ClearedConnectionPassesForFresh()
    ensures var actions := FORGETTING;
            var p := Run(true, actions);
            && IsTo(p, 2, 7)
            && !IsStale(p.connections[2], p.generation)
            && Clears(actions[2..], Some(7)) == 1
  {
    OneOpenOnePending();
    RunOneMore(EARLY, Clear(Some(7)));
    RunOneMore(EARLY + [Clear(Some(7))], Close(0));
    RunOneMore(EARLY + [Clear(Some(7))] + [Close(0)], Established(2, Some(7)));
    var cleared := Step(TWO, Clear(Some(7)), 3);
    assert cleared.generation == LoadBalanced(map[7 := 1]);
    var closed := Step(cleared, Close(0), 4);
    assert closed.generation == LoadBalanced(map[]);
    ClearedOnce(FORGETTING[2..]);
  }

  lemma ClearedOnce(since: seq<Action>)
    requires since == [Request, Clear(Some(7)), Close(0), Established(2, Some(7))]
    ensures Clears(since, Some(7)) == 1
  {
    assert since[..3][..2] == since[..2] && since[..2][..1] == since[..1] && since[..1][..0] == [];
    assert Clears(since[..1], Some(7)) == 0 && Clears(since[..2], Some(7)) == 1 && Clears(since[..3], Some(7)) == 1;
  }
}
