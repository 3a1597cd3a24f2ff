/**
  Per-user resource limits of the self-service panel.

  A limit of zero or less leaves its dimension unlimited; a server limit that is absent or
  zero leaves the number of servers unlimited.
 */
module PelicanQuota {
  import opened Wrappers

  datatype Size = Size(cpu: int, memory: int, disk: int)

  datatype Limits = Limits(size: Size, servers: Option<int>)

  function Sum(servers: seq<Size>): Size {
    if servers == [] then Size(0, 0, 0)
    else
      var s := Sum(servers[1..]);
      Size(servers[0].cpu + s.cpu, servers[0].memory + s.memory, servers[0].disk + s.disk)
  }

  // What is left of one dimension; None when it is unlimited.
  function Left(limit: int, used: int): Option<int> {
    if limit > 0 then Some(if limit - used > 0 then limit - used else 0) else None
  }

  function CpuLeft(l: Limits, servers: seq<Size>): Option<int> {
    Left(l.size.cpu, Sum(servers).cpu)
  }

  function MemoryLeft(l: Limits, servers: seq<Size>): Option<int> {
    Left(l.size.memory, Sum(servers).memory)
  }

  function DiskLeft(l: Limits, servers: seq<Size>): Option<int> {
    Left(l.size.disk, Sum(servers).disk)
  }

  predicate CanCreateServer(l: Limits, servers: seq<Size>, request: Size) {
    if l.servers.Some? && l.servers.value != 0 && |servers| >= l.servers.value then false
    else if l.size.cpu > 0 && (request.cpu <= 0 || Sum(servers).cpu + request.cpu > l.size.cpu) then false
    else if l.size.memory > 0
      && (request.memory <= 0 || Sum(servers).memory + request.memory > l.size.memory) then false
    else if l.size.disk > 0 && (request.disk <= 0 || Sum(servers).disk + request.disk > l.size.disk) then false
    else true
  }

  predicate Fits(left: Option<int>, request: int) {
    left.Some? ==> 0 < request <= left.value
  }

  // A server may be created exactly when every limited dimension has room for a positive
  // request and one more server is allowed: what the panel shows is what it enforces.  A
  // limit of zero or less refuses nothing and is shown as none.
  lemma CanCreateMeetsLeft(l: Limits, servers: seq<Size>, request: Size)
    ensures CanCreateServer(l, servers, request) <==>
              && Fits(CpuLeft(l, servers), request.cpu)
              && Fits(MemoryLeft(l, servers), request.memory)
              && Fits(DiskLeft(l, servers), request.disk)
              && (l.servers.Some? && l.servers.value != 0 ==> |servers| < l.servers.value)
    ensures CanCreateServer(l, servers, request) <==>
              && (l.size.cpu <= 0 || (request.cpu > 0 && Sum(servers).cpu + request.cpu <= l.size.cpu))
              && (l.size.memory <= 0 || (request.memory > 0 && Sum(servers).memory + request.memory <= l.size.memory))
              && (l.size.disk <= 0 || (request.disk > 0 && Sum(servers).disk + request.disk <= l.size.disk))
              && (l.servers.None? || l.servers.value == 0 || |servers| < l.servers.value)
    ensures CpuLeft(l, servers) == None <==> l.size.cpu <= 0
    ensures MemoryLeft(l, servers) == None <==> l.size.memory <= 0
    ensures DiskLeft(l, servers) == None <==> l.size.disk <= 0
  {
  }

  // ---------------------------------------------------------------------
  // One request at a time.
  // ---------------------------------------------------------------------

  datatype Request = Create(size: Size) | Delete(index: nat)

  function Serve(l: Limits, servers: seq<Size>, r: Request): seq<Size> {
    match r
    case Create(size) => if CanCreateServer(l, servers, size) then servers + [size] else servers
    case Delete(i) => if i < |servers| then servers[..i] + servers[i + 1..] else servers
  }

  function ServeAll(l: Limits, servers: seq<Size>, requests: seq<Request>): seq<Size>
    decreases |requests|
  {
    if requests == [] then servers else ServeAll(l, Serve(l, servers, requests[0]), requests[1..])
  }

  predicate NonNegative(servers: seq<Size>) {
    forall s :: s in servers ==> s.cpu >= 0 && s.memory >= 0 && s.disk >= 0
  }

  predicate Within(l: Limits, servers: seq<Size>) {
    var sum := Sum(servers);
    && (l.size.cpu > 0 ==> sum.cpu <= l.size.cpu)
    && (l.size.memory > 0 ==> sum.memory <= l.size.memory)
    && (l.size.disk > 0 ==> sum.disk <= l.size.disk)
    && (l.servers.Some? && l.servers.value > 0 ==> |servers| <= l.servers.value)
  }

  lemma {:induction false} SumAppend(a: seq<Size>, b: seq<Size>)
    ensures var s, t, u := Sum(a + b), Sum(a), Sum(b);
            s == Size(t.cpu + u.cpu, t.memory + u.memory, t.disk + u.disk)
    ensures Sum([]) == Size(0, 0, 0) && forall x: Size :: Sum([x]) == x
  {
    if a == [] {
      assert a + b == b;
    } else {
      assert (a + b)[1..] == a[1..] + b;
      SumAppend(a[1..], b);
    }
  }

  lemma ServeKeepsWithin(l: Limits, servers: seq<Size>, r: Request)
    requires Within(l, servers) && NonNegative(servers)
    requires r.Create? ==> NonNegative([r.size])
    ensures Within(l, Serve(l, servers, r)) && NonNegative(Serve(l, servers, r))
  {
    match r {
      case Create(size) =>
        SumAppend(servers, [size]);
        assert size in [size];
      case Delete(i) =>
        if i < |servers| {
          assert servers == servers[..i] + ([servers[i]] + servers[i + 1..]);
          SumAppend(servers[..i], [servers[i]] + servers[i + 1..]);
          SumAppend(servers[..i], servers[i + 1..]);
          SumAppend([servers[i]], servers[i + 1..]);
          assert servers[i] in servers;
        }
    }
  }

  // Any run of creations and deletions, one at a time, keeps every sum within its limit.
  lemma {:induction false} SerialRunStaysWithin(l: Limits, servers: seq<Size>, requests: seq<Request>)
    requires Within(l, servers) && NonNegative(servers)
    requires forall r :: r in requests && r.Create? ==> NonNegative([r.size])
    ensures Within(l, ServeAll(l, servers, requests))
    decreases |requests|
  {
    hide Within, NonNegative, Serve;
    if requests != [] {
      ServeKeepsWithin(l, servers, requests[0]);
      SerialRunStaysWithin(l, Serve(l, servers, requests[0]), requests[1..]);
    }
  }

  // ---------------------------------------------------------------------
  // Two requests at a time.
  // ---------------------------------------------------------------------

  // The quota is checked before the lock is taken, so two creations by one user may both
  // pass the check before either server exists.
  function ServeTogether(l: Limits, servers: seq<Size>, a: Size, b: Size): seq<Size> {
    servers
    + (if CanCreateServer(l, servers, a) then [a] else [])
    + (if CanCreateServer(l, servers, b) then [b] else [])
  }

  // Two accepted overlapping requests stay within the limits exactly when the second would
  // also have been accepted after the first.
  lemma OverlapExceedsUnlessSerial(l: Limits, servers: seq<Size>, a: Size, b: Size)
    requires Within(l, servers) && NonNegative(servers) && NonNegative([a]) && NonNegative([b])
    requires CanCreateServer(l, servers, a) && CanCreateServer(l, servers, b)
    ensures Within(l, ServeTogether(l, servers, a, b)) <==> CanCreateServer(l, servers + [a], b)
  {
    SumAppend(servers, [a]);
    SumAppend(servers + [a], [b]);
  }

  // The default friends' quota of one server is exceeded by two overlapping requests.
  lemma OverlapExceedsServerLimit(l: Limits, a: Size)
    requires l == Limits(Size(400, 16384, 76800), Some(1))
    requires 0 < a.cpu <= 400 && 0 < a.memory <= 16384 && 0 < a.disk <= 76800
    ensures CanCreateServer(l, [], a) && !Within(l, ServeTogether(l, [], a, a))
  {
    assert ServeTogether(l, [], a, a) == [a, a];
  }
}
