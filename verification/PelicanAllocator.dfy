/**
  The self-service port allocator: a first-fit search for consecutive free ports on one
  node and one address.

  An address is represented by its rank in the database's sort order.
 */
module PelicanAllocator {
  import opened Wrappers

  datatype Row = Row(id: nat, node: int, ip: int, port: int, server: Option<int>, locked: bool)

  type Range = (int, int)

  // The table has one row for each node, address and port.
  ghost predicate Unique(table: seq<Row>) {
    && (forall i, j :: 0 <= i < j < |table| ==>
          !(table[i].node == table[j].node && table[i].ip == table[j].ip && table[i].port == table[j].port))
    && (forall i, j :: 0 <= i < j < |table| ==> table[i].id != table[j].id)
  }

  predicate InRanges(port: int, ranges: seq<Range>) {
    exists r :: r in ranges && r.0 <= port <= r.1
  }

  // What the query asks of a row: on the node, owned by nobody, not locked, in a range.
  predicate Available(row: Row, node: int, ranges: seq<Range>) {
    row.node == node && row.server.None? && !row.locked && InRanges(row.port, ranges)
  }

  // ---------------------------------------------------------------------
  // The query, ordered by address and port, and its grouping by address.
  // ---------------------------------------------------------------------

  predicate Before(a: Row, b: Row) {
    a.ip < b.ip || (a.ip == b.ip && a.port < b.port)
  }

  predicate Ordered(rows: seq<Row>) {
    forall i, j :: 0 <= i < j < |rows| ==> Before(rows[i], rows[j])
  }

  function Insert(row: Row, rows: seq<Row>): (r: seq<Row>)
    ensures forall x :: x in r <==> x == row || x in rows
  {
    if rows == [] then [row]
    else if Before(rows[0], row) then [rows[0]] + Insert(row, rows[1..])
    else [row] + rows
  }

  function Query(table: seq<Row>, node: int, ranges: seq<Range>): (r: seq<Row>)
    ensures forall x :: x in r <==> x in table && Available(x, node, ranges)
  {
    if table == [] then []
    else
      var rest := Query(table[1..], node, ranges);
      if Available(table[0], node, ranges) then Insert(table[0], rest) else rest
  }

  lemma {:induction false} InsertOrdered(row: Row, rows: seq<Row>)
    requires Ordered(rows) && forall x :: x in rows ==> x.ip != row.ip || x.port != row.port
    ensures Ordered(Insert(row, rows))
  {
    if rows != [] && Before(rows[0], row) {
      InsertOrdered(row, rows[1..]);
      var r := Insert(row, rows[1..]);
      assert forall x :: x in rows[1..] ==> Before(rows[0], x);
      assert forall i :: 0 <= i < |r| ==> r[i] in r;
    }
  }

  lemma {:induction false} QueryOrdered(table: seq<Row>, node: int, ranges: seq<Range>)
    requires Unique(table)
    ensures Ordered(Query(table, node, ranges))
  {
    if table != [] {
      assert Unique(table[1..]);
      QueryOrdered(table[1..], node, ranges);
      if Available(table[0], node, ranges) {
        InsertOrdered(table[0], Query(table[1..], node, ranges));
      }
    }
  }

  function WithIp(rows: seq<Row>, ip: int, same: bool): (r: seq<Row>)
    ensures forall x :: x in r <==> x in rows && (x.ip == ip) == same
    ensures |r| <= |rows|
  {
    if rows == [] then []
    else if (rows[0].ip == ip) == same then [rows[0]] + WithIp(rows[1..], ip, same)
    else WithIp(rows[1..], ip, same)
  }

  // Rows collected by address, in order of first appearance.
  function GroupByIp(rows: seq<Row>): seq<seq<Row>>
    decreases |rows|
  {
    if rows == [] then []
    else [WithIp(rows, rows[0].ip, true)] + GroupByIp(WithIp(rows[1..], rows[0].ip, false))
  }

  lemma {:induction false} WithIpOrdered(rows: seq<Row>, ip: int, same: bool)
    requires Ordered(rows)
    ensures Ordered(WithIp(rows, ip, same))
  {
    if rows != [] {
      WithIpOrdered(rows[1..], ip, same);
      var rest := WithIp(rows[1..], ip, same);
      forall i | 0 <= i < |rest|
        ensures Before(rows[0], rest[i])
      {
        assert rest[i] in rest;
      }
    }
  }

  // All rows of one address, in port order.
  ghost predicate IsGroup(rows: seq<Row>, g: seq<Row>) {
    && g != [] && Ordered(g)
    && (forall x :: x in g <==> x in rows && x.ip == g[0].ip)
  }

  ghost predicate Grouped(groups: seq<seq<Row>>, x: Row) {
    exists i :: 0 <= i < |groups| && x in groups[i]
  }

  // The groups of the addresses that occur, in address order.
  ghost predicate IsGrouping(rows: seq<Row>, groups: seq<seq<Row>>) {
    && (forall i :: 0 <= i < |groups| ==> IsGroup(rows, groups[i]))
    && (forall i, j :: 0 <= i < j < |groups| ==> groups[i][0].ip < groups[j][0].ip)
    && (forall x :: x in rows ==> Grouped(groups, x))
  }

  lemma FirstGroup(rows: seq<Row>, rest: seq<Row>, groups: seq<seq<Row>>)
    requires Ordered(rows) && rows != [] && rest == WithIp(rows[1..], rows[0].ip, false) && IsGrouping(rest, groups)
    ensures IsGrouping(rows, [WithIp(rows, rows[0].ip, true)] + groups)
  {
    hide WithIp, Grouped;
    var g := WithIp(rows, rows[0].ip, true);
    var all := [g] + groups;
    WithIpOrdered(rows, rows[0].ip, true);
    assert rows[0] in g;
    forall i | 0 <= i < |groups|
      ensures IsGroup(rows, groups[i]) && rows[0].ip < groups[i][0].ip
    {
      LaterGroup(rows, rest, groups[i]);
    }
    assert g[0] in g;
    forall x | x in rows
      ensures Grouped(all, x)
    {
      StillGrouped(rows, rest, groups, x);
    }
  }

  lemma LaterGroup(rows: seq<Row>, rest: seq<Row>, g: seq<Row>)
    requires Ordered(rows) && rows != [] && rest == WithIp(rows[1..], rows[0].ip, false) && IsGroup(rest, g)
    ensures IsGroup(rows, g) && rows[0].ip < g[0].ip
  {
    hide WithIp;
    assert g[0] in g && g[0] in rest;
    assert forall x :: x in rows ==> x == rows[0] || x in rows[1..];
  }

  lemma StillGrouped(rows: seq<Row>, rest: seq<Row>, groups: seq<seq<Row>>, x: Row)
    requires rows != [] && rest == WithIp(rows[1..], rows[0].ip, false) && x in rows
    requires x in rest ==> Grouped(groups, x)
    ensures Grouped([WithIp(rows, rows[0].ip, true)] + groups, x)
  {
    hide WithIp, Grouped;
    if x.ip != rows[0].ip {
      assert x in rest;
    }
    GroupedCons(WithIp(rows, rows[0].ip, true), groups, x);
  }

  lemma GroupedCons(g: seq<Row>, groups: seq<seq<Row>>, x: Row)
    requires x in g || Grouped(groups, x)
    ensures Grouped([g] + groups, x)
  {
    var all := [g] + groups;
    if x in g {
      assert x in all[0];
    } else {
      var i :| 0 <= i < |groups| && x in groups[i];
      assert all[i + 1] == groups[i];
    }
  }

  lemma {:induction false} Groups(rows: seq<Row>)
    requires Ordered(rows)
    ensures IsGrouping(rows, GroupByIp(rows))
    decreases |rows|
  {
    hide IsGrouping;
    if rows != [] {
      var rest := WithIp(rows[1..], rows[0].ip, false);
      WithIpOrdered(rows[1..], rows[0].ip, false);
      Groups(rest);
      FirstGroup(rows, rest, GroupByIp(rest));
    } else {
      NoGroups();
    }
  }

  lemma NoGroups()
    ensures IsGrouping([], [])
  {
  }

  // ---------------------------------------------------------------------
  // Runs of consecutive ports inside one group.
  // ---------------------------------------------------------------------

  ghost predicate HasPort(g: seq<Row>, port: int) {
    exists x :: x in g && x.port == port
  }

  ghost predicate HasRun(g: seq<Row>, start: int, k: nat) {
    forall j :: start <= j < start + k ==> HasPort(g, j)
  }

  ghost predicate NoRun(g: seq<Row>, k: nat) {
    forall s :: !HasRun(g, s, k)
  }

  predicate OneIp(g: seq<Row>) {
    forall i, j :: 0 <= i < j < |g| ==> g[i].ip == g[j].ip && g[i].port < g[j].port
  }

  // A run that ends at the last row occupies the last k rows.
  lemma {:induction false} RunIsSuffix(g: seq<Row>, k: nat, m: nat)
    requires OneIp(g) && g != [] && HasRun(g, g[|g| - 1].port - k + 1, k) && m < k
    ensures m < |g| && g[|g| - 1 - m].port == g[|g| - 1].port - m
    decreases m
  {
    if m > 0 {
      RunIsSuffix(g, k, m - 1);
      assert HasPort(g, g[|g| - 1].port - m);
      var x :| x in g && x.port == g[|g| - 1].port - m;
      var i :| 0 <= i < |g| && g[i] == x;
    }
  }

  lemma RunWithinPrefix(g: seq<Row>, n: nat, start: int, k: nat)
    requires OneIp(g) && n < |g| && k > 0
    requires HasRun(g[..n + 1], start, k) && !HasRun(g[..n], start, k)
    ensures start == g[n].port - k + 1
  {
    var j :| start <= j < start + k && !HasPort(g[..n], j);
    assert HasPort(g[..n + 1], j) && HasPort(g[..n + 1], start + k - 1);
    assert g[..n + 1] == g[..n] + [g[n]];
    assert j == g[n].port;
    var x :| x in g[..n + 1] && x.port == start + k - 1;
  }

  // A run below the port of row n lies in the rows before it.
  lemma RunBelow(g: seq<Row>, n: nat, start: int, k: nat)
    requires OneIp(g) && n < |g| && HasRun(g, start, k) && start + k - 1 < g[n].port
    ensures HasRun(g[..n], start, k)
  {
    forall j | start <= j < start + k
      ensures HasPort(g[..n], j)
    {
      assert HasPort(g, j);
      var x :| x in g && x.port == j;
      var i :| 0 <= i < |g| && g[i] == x;
      assert i < n && g[..n][i] == x;
    }
  }

  // The first k consecutive ports of a group.
  method FirstRun(g: seq<Row>, k: nat) returns (found: Option<seq<Row>>)
    requires OneIp(g) && k > 0
    ensures found.Some? ==>
              && |found.value| == k
              && (forall j :: 0 <= j < k ==> found.value[j] in g && found.value[j].port == found.value[0].port + j)
              && (forall s :: s < found.value[0].port ==> !HasRun(g, s, k))
    ensures found.None? ==> NoRun(g, k)
  {
    hide HasRun, NoRun, OneIp;
    var block: seq<Row> := [];
    var expected: Option<int> := None;
    ghost var from := 0;
    assert g[..0] == [];
    EmptyHasNoRun(k);
    for n := 0 to |g|
      invariant from <= n && n - from < k && block == g[from..n]
      invariant if n == 0 then expected.None? else from < n && expected == Some(g[n - 1].port + 1)
      invariant Consecutive(g, from, n)
      invariant NoRun(g[..n], k)
    {
      var row := g[n];
      if expected.Some? && row.port != expected.value {
        block := [];
        from := n;
      }
      block := block + [row];
      expected := Some(row.port + 1);
      assert block == g[from..n + 1];
      if |block| == k {
        assert Consecutive(g, from, n + 1);
        NoEarlierRun(g, n, g[from].port, k);
        SliceIsRun(g, from, n + 1);
        return Some(block);
      }
      NoNewRun(g, n, from, k);
    }
    assert g[..|g|] == g;
    found := None;
  }

  lemma SliceIsRun(g: seq<Row>, from: nat, upto: nat)
    requires from < upto <= |g| && Consecutive(g, from, upto)
    ensures var block := g[from..upto];
            forall j :: 0 <= j < |block| ==> block[j] in g && block[j].port == block[0].port + j
  {
  }

  // Rows from..upto have consecutive ports, and the row before them does not fit.
  predicate Consecutive(g: seq<Row>, from: nat, upto: nat)
    requires from <= upto <= |g|
  {
    && (forall j :: from <= j < upto ==> g[j].port == g[from].port + (j - from))
    && (0 < from < upto ==> g[from - 1].port + 1 != g[from].port)
  }

  lemma NoNewRun(g: seq<Row>, n: nat, from: nat, k: nat)
    requires OneIp(g) && from <= n < |g| && n + 1 - from < k
    requires Consecutive(g, from, n + 1) && NoRun(g[..n], k)
    ensures NoRun(g[..n + 1], k)
  {
    if !NoRun(g[..n + 1], k) {
      var s :| HasRun(g[..n + 1], s, k);
      RunWithinPrefix(g, n, s, k);
      RunIsSuffix(g[..n + 1], k, n + 1 - from);
      assert false;
    }
  }

  lemma NoPorts(port: int)
    ensures !HasPort([], port)
  {
  }

  lemma EmptyHasNoRun(k: nat)
    requires k > 0
    ensures NoRun([], k)
  {
    if !NoRun([], k) {
      var s :| HasRun([], s, k);
      NoPorts(s);
    }
  }

  lemma NoEarlierRun(g: seq<Row>, n: nat, start: int, k: nat)
    requires OneIp(g) && n < |g| && start + k - 1 == g[n].port && NoRun(g[..n], k)
    ensures forall s :: s < start ==> !HasRun(g, s, k)
  {
    forall s | s < start
      ensures !HasRun(g, s, k)
    {
      if HasRun(g, s, k) {
        RunBelow(g, n, s, k);
      }
    }
  }

  // ---------------------------------------------------------------------
  // First fit over nodes, addresses and ports.
  // ---------------------------------------------------------------------

  datatype Failure = NoViableNode | PortsNotConfigured | NoViableAllocation

  ghost predicate FreeAt(table: seq<Row>, ranges: seq<Range>, node: int, ip: int, port: int) {
    exists x :: x in table && Available(x, node, ranges) && x.ip == ip && x.port == port
  }

  ghost predicate BlockAt(table: seq<Row>, ranges: seq<Range>, node: int, ip: int, start: int, k: nat) {
    forall port :: start <= port < start + k ==> FreeAt(table, ranges, node, ip, port)
  }

  ghost predicate NoBlock(table: seq<Row>, ranges: seq<Range>, node: int, k: nat) {
    forall ip, start :: !BlockAt(table, ranges, node, ip, start, k)
  }

  // k rows of one node and address with consecutive ports, owned by nobody, not locked, and
  // each in some range.
  predicate IsBlock(table: seq<Row>, ranges: seq<Range>, node: int, k: nat, block: seq<Row>) {
    && |block| == k > 0
    && (forall j :: 0 <= j < k ==> block[j] in table && block[j].node == node && block[j].ip == block[0].ip)
    && (forall j :: 0 <= j < k ==> block[j].port == block[0].port + j)
    && forall j :: 0 <= j < k ==>
         block[j].server == None && !block[j].locked && exists r :: r in ranges && r.0 <= block[j].port <= r.1
  }

  // No node tried earlier has a block, and none on the n-th node comes before this one.
  ghost predicate NoneEarlier(table: seq<Row>, ranges: seq<Range>, nodes: seq<int>, n: nat, k: nat, block: seq<Row>) {
    forall m, other: seq<Row> :: 0 <= m < |nodes| && block != [] && IsBlock(table, ranges, nodes[m], k, other) ==>
      n < m || (n == m && (block[0].ip < other[0].ip || (block[0].ip == other[0].ip && block[0].port <= other[0].port)))
  }

  // The block comes before every other one on its node: lower address, then lower port.
  ghost predicate FirstOnNode(table: seq<Row>, ranges: seq<Range>, node: int, k: nat, block: seq<Row>) {
    && IsBlock(table, ranges, node, k, block)
    && (forall ip, start :: BlockAt(table, ranges, node, ip, start, k) ==>
          block[0].ip < ip || (block[0].ip == ip && block[0].port <= start))
  }

  ghost predicate FirstFit(table: seq<Row>, ranges: seq<Range>, nodes: seq<int>, k: nat, block: seq<Row>) {
    exists n :: 0 <= n < |nodes| && FirstOnNode(table, ranges, nodes[n], k, block)
      && NoBlockBefore(table, ranges, nodes, n, k)
  }

  ghost predicate NoBlockBefore(table: seq<Row>, ranges: seq<Range>, nodes: seq<int>, n: nat, k: nat) {
    forall m :: 0 <= m < n && m < |nodes| ==> NoBlock(table, ranges, nodes[m], k)
  }

  lemma GroupIsAddress(table: seq<Row>, ranges: seq<Range>, node: int, g: seq<Row>, start: int, k: nat)
    requires IsGroup(Query(table, node, ranges), g)
    ensures HasRun(g, start, k) <==> BlockAt(table, ranges, node, g[0].ip, start, k)
  {
    hide Query, Available;
    forall port
      ensures HasPort(g, port) <==> FreeAt(table, ranges, node, g[0].ip, port)
    {
      if FreeAt(table, ranges, node, g[0].ip, port) {
        var x :| x in table && Available(x, node, ranges) && x.ip == g[0].ip && x.port == port;
        assert x in Query(table, node, ranges) && x in g;
      }
    }
  }

  // An address without free rows has no block.
  lemma BlocksAreInGroups(table: seq<Row>, ranges: seq<Range>, node: int, groups: seq<seq<Row>>, ip: int, start: int,
                          k: nat) returns (i: nat)
    requires IsGrouping(Query(table, node, ranges), groups) && BlockAt(table, ranges, node, ip, start, k) && k > 0
    ensures i < |groups| && IsGroup(Query(table, node, ranges), groups[i]) && groups[i][0].ip == ip
  {
    hide Query, Available;
    assert FreeAt(table, ranges, node, ip, start);
    var x :| x in table && Available(x, node, ranges) && x.ip == ip && x.port == start;
    assert Grouped(groups, x);
    i :| 0 <= i < |groups| && x in groups[i];
    assert IsGroup(Query(table, node, ranges), groups[i]);
  }

  lemma GroupOnePort(rows: seq<Row>, g: seq<Row>)
    requires IsGroup(rows, g)
    ensures OneIp(g)
  {
    forall i, j | 0 <= i < j < |g|
      ensures g[i].ip == g[j].ip && g[i].port < g[j].port
    {
      assert g[i] in g && g[j] in g && Before(g[i], g[j]);
    }
  }

  lemma FoundIsFirst(table: seq<Row>, ranges: seq<Range>, node: int, groups: seq<seq<Row>>, i: nat, k: nat,
                     block: seq<Row>)
    requires IsGrouping(Query(table, node, ranges), groups) && i < |groups| && k > 0
    requires forall j :: 0 <= j < i ==> NoRun(groups[j], k)
    requires |block| == k && forall j :: 0 <= j < k ==> block[j] in groups[i] && block[j].port == block[0].port + j
    requires forall s :: s < block[0].port ==> !HasRun(groups[i], s, k)
    ensures FirstOnNode(table, ranges, node, k, block)
  {
    hide Query, Available, HasRun, BlockAt;
    assert IsGroup(Query(table, node, ranges), groups[i]);
    assert block[0] in groups[i];
    AvailableBlock(table, ranges, node, k, block);
    forall ip, start | BlockAt(table, ranges, node, ip, start, k)
      ensures block[0].ip < ip || (block[0].ip == ip && block[0].port <= start)
    {
      var j := BlocksAreInGroups(table, ranges, node, groups, ip, start, k);
      GroupIsAddress(table, ranges, node, groups[j], start, k);
      assert HasRun(groups[j], start, k);
    }
  }

  lemma AvailableBlock(table: seq<Row>, ranges: seq<Range>, node: int, k: nat, block: seq<Row>)
    requires |block| == k > 0
    requires forall j :: 0 <= j < k ==> block[j] in table && Available(block[j], node, ranges)
    requires forall j :: 0 <= j < k ==> block[j].ip == block[0].ip && block[j].port == block[0].port + j
    ensures IsBlock(table, ranges, node, k, block)
  {
  }

  lemma NothingFound(table: seq<Row>, ranges: seq<Range>, node: int, groups: seq<seq<Row>>, k: nat)
    requires IsGrouping(Query(table, node, ranges), groups) && k > 0
    requires forall j :: 0 <= j < |groups| ==> NoRun(groups[j], k)
    ensures NoBlock(table, ranges, node, k)
  {
    hide Query, Available, HasRun, BlockAt;
    forall ip, start
      ensures !BlockAt(table, ranges, node, ip, start, k)
    {
      if BlockAt(table, ranges, node, ip, start, k) {
        var j := BlocksAreInGroups(table, ranges, node, groups, ip, start, k);
        GroupIsAddress(table, ranges, node, groups[j], start, k);
      }
    }
  }

  // What the query of one node finds: the node's first block, or that it has none.
  ghost predicate Answers(table: seq<Row>, ranges: seq<Range>, node: int, k: nat, found: Option<seq<Row>>) {
    if found.Some? then FirstOnNode(table, ranges, node, k, found.value) else NoBlock(table, ranges, node, k)
  }

  method SearchNode(table: seq<Row>, node: int, ranges: seq<Range>, k: nat) returns (found: Option<seq<Row>>)
    requires Unique(table) && k > 0
    ensures Answers(table, ranges, node, k, found)
  {
    hide Query, GroupByIp, Unique, HasRun;
    var rows := Query(table, node, ranges);
    QueryOrdered(table, node, ranges);
    Groups(rows);
    var groups := GroupByIp(rows);
    for i := 0 to |groups|
      invariant forall j :: 0 <= j < i ==> NoRun(groups[j], k)
    {
      GroupOnePort(rows, groups[i]);
      found := FirstRun(groups[i], k);
      if found.Some? {
        FoundIsFirst(table, ranges, node, groups, i, k, found.value);
        return;
      }
    }
    NothingFound(table, ranges, node, groups, k);
    found := None;
  }

  // `nodes` are the viable nodes in the order in which they are tried.
  method SelectAllocationBlock(table: seq<Row>, nodes: seq<int>, ranges: seq<Range>, k: nat)
    returns (r: Result<seq<Row>, Failure>)
    requires Unique(table) && k > 0
    ensures r == Failure(NoViableNode) <==> nodes == []
    ensures r == Failure(PortsNotConfigured) <==> nodes != [] && ranges == []
    ensures r.Success? <==> nodes != [] && ranges != [] && !NoBlockBefore(table, ranges, nodes, |nodes|, k)
    ensures r.Success? ==> FirstFit(table, ranges, nodes, k, r.value)
    ensures r.Success? ==>
              exists n :: 0 <= n < |nodes| && IsBlock(table, ranges, nodes[n], k, r.value)
                          && NoneEarlier(table, ranges, nodes, n, k, r.value)
    ensures r == Failure(NoViableAllocation) <==>
              nodes != [] && ranges != [] && NoBlockBefore(table, ranges, nodes, |nodes|, k)
    ensures r == Failure(NoViableAllocation) ==>
              forall m, other :: 0 <= m < |nodes| ==> !IsBlock(table, ranges, nodes[m], k, other)
  {
    hide Unique, NoBlock, FirstOnNode, IsBlock, NoneEarlier, FirstFit;
    if nodes == [] {
      return Failure(NoViableNode);
    }
    if ranges == [] {
      return Failure(PortsNotConfigured);
    }
    for n := 0 to |nodes|
      invariant NoBlockBefore(table, ranges, nodes, n, k)
    {
      var found := SearchNode(table, nodes[n], ranges, k);
      if found.Some? {
        FirstIsBlock(table, ranges, nodes[n], k, found.value);
        FirstBeforeAll(table, ranges, nodes, n, k, found.value);
        return Success(found.value);
      }
    }
    NoBlockAtAll(table, ranges, nodes, |nodes|, k);
    r := Failure(NoViableAllocation);
  }

  lemma NoBlockAtAll(table: seq<Row>, ranges: seq<Range>, nodes: seq<int>, n: nat, k: nat)
    requires NoBlockBefore(table, ranges, nodes, n, k)
    ensures forall m, other :: 0 <= m < n && m < |nodes| ==> !IsBlock(table, ranges, nodes[m], k, other)
  {
    hide IsBlock, BlockAt;
    forall m, other | 0 <= m < n && m < |nodes|
      ensures !IsBlock(table, ranges, nodes[m], k, other)
    {
      assert NoBlock(table, ranges, nodes[m], k);
      if IsBlock(table, ranges, nodes[m], k, other) {
        BlockOfFirst(table, ranges, nodes[m], k, other);
      }
    }
  }

  lemma FirstBeforeAll(table: seq<Row>, ranges: seq<Range>, nodes: seq<int>, n: nat, k: nat, block: seq<Row>)
    requires n < |nodes| && FirstOnNode(table, ranges, nodes[n], k, block) && NoBlockBefore(table, ranges, nodes, n, k)
    ensures FirstFit(table, ranges, nodes, k, block) && NoneEarlier(table, ranges, nodes, n, k, block)
  {
    hide BlockAt;
    NoBlockAtAll(table, ranges, nodes, n, k);
    forall m, other: seq<Row> | 0 <= m < |nodes| && IsBlock(table, ranges, nodes[m], k, other)
      ensures n <= m
      ensures n == m ==> BlockAt(table, ranges, nodes[n], other[0].ip, other[0].port, k)
    {
      BlockOfFirst(table, ranges, nodes[m], k, other);
    }
  }

  lemma FirstIsBlock(table: seq<Row>, ranges: seq<Range>, node: int, k: nat, block: seq<Row>)
    requires FirstOnNode(table, ranges, node, k, block)
    ensures IsBlock(table, ranges, node, k, block) && !NoBlock(table, ranges, node, k)
  {
    forall port | block[0].port <= port < block[0].port + k
      ensures FreeAt(table, ranges, node, block[0].ip, port)
    {
      assert block[port - block[0].port] in table;
    }
    assert BlockAt(table, ranges, node, block[0].ip, block[0].port, k);
  }

  // First fit determines the block.
  lemma FirstFitIsUnique(table: seq<Row>, ranges: seq<Range>, nodes: seq<int>, k: nat, a: seq<Row>, b: seq<Row>)
    requires Unique(table) && FirstFit(table, ranges, nodes, k, a) && FirstFit(table, ranges, nodes, k, b)
    ensures a == b
  {
    hide BlockAt;
    var n :| 0 <= n < |nodes| && FirstOnNode(table, ranges, nodes[n], k, a)
      && NoBlockBefore(table, ranges, nodes, n, k);
    var m :| 0 <= m < |nodes| && FirstOnNode(table, ranges, nodes[m], k, b)
      && NoBlockBefore(table, ranges, nodes, m, k);
    FirstIsBlock(table, ranges, nodes[n], k, a);
    FirstIsBlock(table, ranges, nodes[m], k, b);
    BlockOfFirst(table, ranges, nodes[n], k, a);
    BlockOfFirst(table, ranges, nodes[m], k, b);
    assert n == m;
    forall j | 0 <= j < k
      ensures a[j] == b[j]
    {
      SameRow(table, a[j], b[j]);
    }
  }

  lemma BlockOfFirst(table: seq<Row>, ranges: seq<Range>, node: int, k: nat, block: seq<Row>)
    requires IsBlock(table, ranges, node, k, block)
    ensures BlockAt(table, ranges, node, block[0].ip, block[0].port, k)
  {
    forall port | block[0].port <= port < block[0].port + k
      ensures FreeAt(table, ranges, node, block[0].ip, port)
    {
      assert block[port - block[0].port] in table;
    }
  }

  lemma SameRow(table: seq<Row>, x: Row, y: Row)
    requires Unique(table) && x in table && y in table && x.node == y.node && x.ip == y.ip && x.port == y.port
    ensures x == y
  {
    var i :| 0 <= i < |table| && table[i] == x;
    var j :| 0 <= j < |table| && table[j] == y;
  }
}
