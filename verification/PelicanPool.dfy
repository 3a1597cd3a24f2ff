/**
  Completion of the self-service allocation pool: one row for every port of 28000-28999
  on the pool address of the node.
 */
module PelicanPool {
  import opened Wrappers
  import opened PelicanAllocator

  const FIRST_PORT := 28000
  const LAST_PORT := 28999
  const CHUNK: nat := 250

  datatype PoolError = ForeignAddress(port: int) | WrongCount(found: nat)

  predicate InPool(row: Row, node: int) {
    row.node == node && FIRST_PORT <= row.port <= LAST_PORT
  }

  predicate PoolRow(row: Row, node: int, ip: int) {
    InPool(row, node) && row.ip == ip
  }

  predicate HasPool(rows: seq<Row>, node: int, ip: int, port: int) {
    exists x :: x in rows && PoolRow(x, node, ip) && x.port == port
  }

  predicate HasAddress(rows: seq<Row>, node: int, ip: int, port: int) {
    exists x :: x in rows && x.node == node && x.ip == ip && x.port == port
  }

  lemma PoolHasAddress(rows: seq<Row>, node: int, ip: int, port: int)
    ensures 28000 <= port <= 28999 ==> (HasPool(rows, node, ip, port) <==> HasAddress(rows, node, ip, port))
  {
    if 28000 <= port <= 28999 && HasAddress(rows, node, ip, port) {
      var x :| x in rows && x.node == node && x.ip == ip && x.port == port;
      assert PoolRow(x, node, ip);
    }
  }

  // The pool ports from p on that have no row, in order.
  function Missing(rows: seq<Row>, node: int, ip: int, p: int): seq<int>
    requires p <= LAST_PORT + 1
    decreases LAST_PORT + 1 - p
  {
    if p == LAST_PORT + 1 then []
    else (if HasPool(rows, node, ip, p) then [] else [p]) + Missing(rows, node, ip, p + 1)
  }

  // The rows inserted for a list of ports, with consecutive fresh ids.
  function NewRows(ports: seq<int>, node: int, ip: int, id: nat): (r: seq<Row>)
    ensures |r| == |ports|
    ensures forall i :: 0 <= i < |r| ==> r[i] == Row(id + i, node, ip, ports[i], None, false)
  {
    if ports == [] then [] else [Row(id, node, ip, ports[0], None, false)] + NewRows(ports[1..], node, ip, id + 1)
  }

  lemma {:induction false} NewRowsAppend(a: seq<int>, b: seq<int>, node: int, ip: int, id: nat)
    ensures NewRows(a + b, node, ip, id) == NewRows(a, node, ip, id) + NewRows(b, node, ip, id + |a|)
  {
  }

  function CountPool(rows: seq<Row>, node: int, ip: int): nat {
    if rows == [] then 0 else CountPool(rows[1..], node, ip) + if PoolRow(rows[0], node, ip) then 1 else 0
  }

  lemma {:induction false} MissingPorts(rows: seq<Row>, node: int, ip: int, p: int)
    requires FIRST_PORT <= p <= LAST_PORT + 1
    ensures forall q :: q in Missing(rows, node, ip, p) <==> p <= q <= LAST_PORT && !HasPool(rows, node, ip, q)
    ensures forall i, j :: 0 <= i < j < |Missing(rows, node, ip, p)| ==>
              Missing(rows, node, ip, p)[i] < Missing(rows, node, ip, p)[j]
    decreases LAST_PORT + 1 - p
  {
    hide HasPool;
    if p <= LAST_PORT {
      MissingPorts(rows, node, ip, p + 1);
      var rest := Missing(rows, node, ip, p + 1);
      assert forall i :: 0 <= i < |rest| ==> rest[i] in rest;
    }
  }

  // ---------------------------------------------------------------------
  // Counting the pool.
  // ---------------------------------------------------------------------

  function PoolPorts(rows: seq<Row>, node: int, ip: int): set<int> {
    set x | x in rows && PoolRow(x, node, ip) :: x.port
  }

  lemma {:induction false} CountIsPorts(rows: seq<Row>, node: int, ip: int)
    requires Unique(rows)
    ensures CountPool(rows, node, ip) == |PoolPorts(rows, node, ip)|
  {
    hide PoolPorts;
    if rows != [] {
      TailIsUnique(rows);
      CountIsPorts(rows[1..], node, ip);
      FirstPort(rows, node, ip);
    } else {
      NoPoolPorts(node, ip);
    }
  }

  lemma NoPoolPorts(node: int, ip: int)
    ensures PoolPorts([], node, ip) == {}
  {
  }

  lemma TailIsUnique(rows: seq<Row>)
    requires Unique(rows) && rows != []
    ensures Unique(rows[1..])
  {
  }

  // A first row of the pool adds a port of its own, any other first row adds none.
  lemma FirstPort(rows: seq<Row>, node: int, ip: int)
    requires Unique(rows) && rows != []
    ensures PoolRow(rows[0], node, ip) ==>
              && rows[0].port !in PoolPorts(rows[1..], node, ip)
              && PoolPorts(rows, node, ip) == PoolPorts(rows[1..], node, ip) + {rows[0].port}
    ensures !PoolRow(rows[0], node, ip) ==> PoolPorts(rows, node, ip) == PoolPorts(rows[1..], node, ip)
  {
    assert forall x :: x in rows <==> x == rows[0] || x in rows[1..];
    if PoolRow(rows[0], node, ip) {
      forall x | x in rows[1..] && PoolRow(x, node, ip)
        ensures x.port != rows[0].port
      {
        var j :| 0 <= j < |rows[1..]| && rows[1..][j] == x;
        assert rows[j + 1] == x;
      }
    }
  }

  function Interval(lo: int, hi: int): (s: set<int>)
    requires lo <= hi
    ensures forall p :: p in s <==> lo <= p < hi
    ensures |s| == hi - lo
    decreases hi - lo
  {
    if lo == hi then {} else Interval(lo, hi - 1) + {hi - 1}
  }

  ghost predicate PoolComplete(rows: seq<Row>, node: int, ip: int) {
    forall p :: FIRST_PORT <= p <= LAST_PORT ==> HasPool(rows, node, ip, p)
  }

  lemma CompleteCount(rows: seq<Row>, node: int, ip: int)
    requires Unique(rows) && PoolComplete(rows, node, ip)
    ensures CountPool(rows, node, ip) == LAST_PORT - FIRST_PORT + 1
  {
    CountIsPorts(rows, node, ip);
    forall p | FIRST_PORT <= p <= LAST_PORT
      ensures p in PoolPorts(rows, node, ip)
    {
      assert HasPool(rows, node, ip, p);
    }
    assert PoolPorts(rows, node, ip) == Interval(FIRST_PORT, LAST_PORT + 1);
  }

  // ---------------------------------------------------------------------
  // The program.
  // ---------------------------------------------------------------------

  ghost predicate Fresh(rows: seq<Row>, id: nat) {
    forall x :: x in rows ==> x.id < id
  }

  lemma InsertionKeepsUnique(rows: seq<Row>, node: int, ip: int, id: nat)
    requires Unique(rows) && Fresh(rows, id)
    ensures var more := NewRows(Missing(rows, node, ip, FIRST_PORT), node, ip, id);
            && Unique(rows + more) && Fresh(rows + more, id + |more|)
            && PoolComplete(rows + more, node, ip)
  {
    hide Unique, Fresh, Missing, NewRows, HasPool;
    var ports := Missing(rows, node, ip, FIRST_PORT);
    MissingPorts(rows, node, ip, FIRST_PORT);
    NewRowsUnique(rows, ports, node, ip, id);
    forall p | FIRST_PORT <= p <= LAST_PORT
      ensures HasPool(rows + NewRows(ports, node, ip, id), node, ip, p)
    {
      PortInserted(rows, ports, node, ip, id, p);
    }
  }

  lemma PortInserted(rows: seq<Row>, ports: seq<int>, node: int, ip: int, id: nat, p: int)
    requires FIRST_PORT <= p <= LAST_PORT && (p in ports || HasPool(rows, node, ip, p))
    ensures HasPool(rows + NewRows(ports, node, ip, id), node, ip, p)
  {
    var more := NewRows(ports, node, ip, id);
    if p in ports {
      var i :| 0 <= i < |ports| && ports[i] == p;
      assert more[i] in rows + more;
    } else {
      var x :| x in rows && PoolRow(x, node, ip) && x.port == p;
      assert x in rows + more;
    }
  }

  // The completed pool has all its addresses, and the new rows are those that were missing.
  lemma NewAddresses(rows: seq<Row>, missing: seq<int>, node: int, ip: int, id: nat)
    requires missing == Missing(rows, node, ip, FIRST_PORT)
    requires PoolComplete(rows + NewRows(missing, node, ip, id), node, ip)
    ensures forall p :: 28000 <= p <= 28999 ==> HasAddress(rows + NewRows(missing, node, ip, id), node, ip, p)
    ensures forall i :: 0 <= i < |missing| ==> 28000 <= missing[i] <= 28999 && !HasAddress(rows, node, ip, missing[i])
  {
    hide Missing, HasPool, HasAddress, NewRows;
    MissingPorts(rows, node, ip, FIRST_PORT);
    forall p | 28000 <= p <= 28999
      ensures HasAddress(rows + NewRows(missing, node, ip, id), node, ip, p)
    {
      PoolHasAddress(rows + NewRows(missing, node, ip, id), node, ip, p);
    }
    forall i | 0 <= i < |missing|
      ensures 28000 <= missing[i] <= 28999 && !HasAddress(rows, node, ip, missing[i])
    {
      assert missing[i] in missing;
      PoolHasAddress(rows, node, ip, missing[i]);
    }
  }

  lemma NewRowsUnique(rows: seq<Row>, ports: seq<int>, node: int, ip: int, id: nat)
    requires Unique(rows) && Fresh(rows, id)
    requires forall q :: q in ports ==> FIRST_PORT <= q <= LAST_PORT && !HasPool(rows, node, ip, q)
    requires forall i, j :: 0 <= i < j < |ports| ==> ports[i] < ports[j]
    ensures Unique(rows + NewRows(ports, node, ip, id)) && Fresh(rows + NewRows(ports, node, ip, id), id + |ports|)
  {
    var more := NewRows(ports, node, ip, id);
    var all := rows + more;
    forall i, j | 0 <= i < j < |all|
      ensures all[i].id != all[j].id
      ensures !(all[i].node == all[j].node && all[i].ip == all[j].ip && all[i].port == all[j].port)
    {
      if i < |rows| <= j {
        assert rows[i] in rows && ports[j - |rows|] in ports;
      }
    }
  }

  class Allocations {
    var rows: seq<Row>
    var nextId: nat

    ghost predicate Valid()
      reads this
    {
      Unique(rows) && Fresh(rows, nextId)
    }

    constructor ()
      ensures Valid() && rows == []
    {
      rows, nextId := [], 0;
    }

    // One run of the pool completion for a node and its pool address.
    method CompletePool(node: int, ip: int) returns (r: Result<nat, PoolError>)
      requires Valid()
      modifies this
      ensures Valid()
      ensures r.Failure? <==>
                exists x :: x in old(rows) && x.node == node && 28000 <= x.port <= 28999 && x.ip != ip
      ensures r.Failure? ==> rows == old(rows) && r.error.ForeignAddress?
      ensures r.Success? ==>
                && rows == old(rows) + NewRows(Missing(old(rows), node, ip, FIRST_PORT), node, ip, old(nextId))
                && r.value == |Missing(old(rows), node, ip, FIRST_PORT)|
                && PoolComplete(rows, node, ip)
      ensures r.Success? ==> old(rows) <= rows && |rows| == |old(rows)| + r.value
      ensures r.Success? ==> forall p :: 28000 <= p <= 28999 ==> HasAddress(rows, node, ip, p)
      ensures r.Success? ==>
                forall i :: |old(rows)| <= i < |rows| ==>
                  && rows[i].node == node && rows[i].ip == ip && 28000 <= rows[i].port <= 28999
                  && rows[i].server == None && !rows[i].locked
                  && !HasAddress(old(rows), node, ip, rows[i].port)
    {
      hide Unique, Fresh, PoolComplete, HasPool, HasAddress, Missing, NewRows, CountPool;
      for i := 0 to |rows|
        invariant forall j :: 0 <= j < i ==> !InPool(rows[j], node) || rows[j].ip == ip
      {
        if InPool(rows[i], node) && rows[i].ip != ip {
          return Failure(ForeignAddress(rows[i].port));
        }
      }
      var missing := FindMissing(node, ip);
      InsertionKeepsUnique(rows, node, ip, nextId);
      InsertChunks(missing, node, ip);
      NewAddresses(old(rows), missing, node, ip, old(nextId));
      CompleteCount(rows, node, ip);
      var count := CountPool(rows, node, ip);
      if count != LAST_PORT - FIRST_PORT + 1 {
        return Failure(WrongCount(count));
      }
      r := Success(|missing|);
    }

    method FindMissing(node: int, ip: int) returns (missing: seq<int>)
      ensures missing == Missing(rows, node, ip, FIRST_PORT)
    {
      hide HasPool;
      missing := [];
      var p := LAST_PORT + 1;
      while p > FIRST_PORT
        invariant FIRST_PORT <= p <= LAST_PORT + 1 && missing == Missing(rows, node, ip, p)
      {
        p := p - 1;
        if !HasPool(rows, node, ip, p) {
          missing := [p] + missing;
        }
      }
    }

    // The missing ports are inserted a chunk at a time.
    method InsertChunks(ports: seq<int>, node: int, ip: int)
      modifies this
      ensures rows == old(rows) + NewRows(ports, node, ip, old(nextId))
      ensures nextId == old(nextId) + |ports|
    {
      hide NewRows;
      var done := 0;
      NoNewRows(node, ip, nextId);
      assert ports[..0] == [];
      while done < |ports|
        invariant done <= |ports|
        invariant rows == old(rows) + NewRows(ports[..done], node, ip, old(nextId)) && nextId == old(nextId) + done
      {
        var n := if |ports| - done <= CHUNK then |ports| - done else CHUNK;
        ChunkAppends(old(rows), ports, done, n, node, ip, old(nextId));
        rows, nextId := rows + NewRows(ports[done..done + n], node, ip, nextId), nextId + n;
        done := done + n;
      }
      assert ports[..done] == ports;
    }
  }

  lemma ChunkAppends(rows: seq<Row>, ports: seq<int>, done: nat, n: nat, node: int, ip: int, id: nat)
    requires done + n <= |ports|
    ensures rows + NewRows(ports[..done], node, ip, id) + NewRows(ports[done..done + n], node, ip, id + done) ==
            rows + NewRows(ports[..done + n], node, ip, id)
  {
    hide NewRows;
    NewRowsAppend(ports[..done], ports[done..done + n], node, ip, id);
    assert ports[..done + n] == ports[..done] + ports[done..done + n];
  }

  lemma NoNewRows(node: int, ip: int, id: nat)
    ensures NewRows([], node, ip, id) == []
  {
  }

  lemma PoolCompleteAt(rows: seq<Row>, node: int, ip: int, p: int)
    requires PoolComplete(rows, node, ip)
    ensures FIRST_PORT <= p <= LAST_PORT ==> HasPool(rows, node, ip, p)
  {
  }

  // A second completion finds nothing to insert.
  lemma {:induction false} CompletionIsIdempotent(rows: seq<Row>, node: int, ip: int, p: int)
    requires PoolComplete(rows, node, ip) && FIRST_PORT <= p <= LAST_PORT + 1
    ensures Missing(rows, node, ip, p) == []
    decreases LAST_PORT + 1 - p
  {
    if p <= LAST_PORT {
      PoolCompleteAt(rows, node, ip, p);
      CompletionIsIdempotent(rows, node, ip, p + 1);
    }
  }

  // A complete pool whose ports are all free and unlocked.
  ghost predicate FreePool(rows: seq<Row>, node: int, ip: int) {
    && PoolComplete(rows, node, ip)
    && forall x :: x in rows && InPool(x, node) ==> x.ip == ip && x.server.None? && !x.locked
  }

  const POOL_RANGES: seq<Range> := [(FIRST_PORT, LAST_PORT)]

  lemma FreePoolHasBlock(rows: seq<Row>, node: int, ip: int, k: nat)
    requires FreePool(rows, node, ip) && 0 < k <= LAST_PORT - FIRST_PORT + 1
    ensures BlockAt(rows, POOL_RANGES, node, ip, FIRST_PORT, k)
  {
    forall port | FIRST_PORT <= port < FIRST_PORT + k
      ensures FreeAt(rows, POOL_RANGES, node, ip, port)
    {
      assert HasPool(rows, node, ip, port);
      var x :| x in rows && PoolRow(x, node, ip) && x.port == port;
      assert POOL_RANGES[0] in POOL_RANGES;
      assert Available(x, node, POOL_RANGES);
    }
  }

  // There first fit, with no other viable node, hands out the pool from its first port on.
  lemma FreePoolFirstFit(rows: seq<Row>, node: int, ip: int, k: nat, block: seq<Row>)
    requires FreePool(rows, node, ip) && 0 < k <= LAST_PORT - FIRST_PORT + 1
    ensures !NoBlockBefore(rows, POOL_RANGES, [node], 1, k)
    ensures FirstFit(rows, POOL_RANGES, [node], k, block) ==>
              |block| == k && forall j :: 0 <= j < k ==>
                block[j] in rows && block[j].ip == ip && block[j].node == node && block[j].port == FIRST_PORT + j
  {
    hide PoolComplete, BlockAt;
    FreePoolHasBlock(rows, node, ip, k);
    assert !NoBlock(rows, POOL_RANGES, [node][0], k);
    if FirstFit(rows, POOL_RANGES, [node], k, block) {
      assert FirstOnNode(rows, POOL_RANGES, node, k, block);
      assert block[0] in rows && Available(block[0], node, POOL_RANGES);
    }
  }

  // A request of up to a thousand ports of a free complete pool is met.
  method SelectFromFreePool(rows: seq<Row>, node: int, ip: int, k: nat) returns (r: Result<seq<Row>, Failure>)
    requires Unique(rows) && FreePool(rows, node, ip) && 0 < k <= LAST_PORT - FIRST_PORT + 1
    ensures r.Success? && |r.value| == k
    ensures forall j :: 0 <= j < k ==>
              r.value[j] in rows && r.value[j].ip == ip && r.value[j].node == node && r.value[j].port == FIRST_PORT + j
  {
    hide Unique, FreePool, NoBlockBefore, FirstFit;
    r := SelectAllocationBlock(rows, [node], POOL_RANGES, k);
    FreePoolFirstFit(rows, node, ip, k, if r.Success? then r.value else []);
  }
}
