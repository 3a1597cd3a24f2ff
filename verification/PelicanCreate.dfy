/**
  Server creations that run at the same time.

  A creation queries node after node, selects a block and assigns it while it holds one
  shared lock; deletions, releases of single allocations and pool completion take no lock.
  Steps of all creations may interleave in any order, so a release may land between the
  queries of two nodes, and a creation may die with the lock held.
 */
module PelicanCreate {
  import opened Wrappers
  import opened PelicanAllocator

  // A scanning creation has the nodes left to query.
  datatype Phase =
    | Outside
    | Entered
    | Scanning(nodes: seq<int>, ranges: seq<Range>, k: nat)
    | Chosen(block: seq<Row>)
    | Leaving

  // The block a server was created with, and the allocations of it that it gave up since.
  datatype Server = Server(block: seq<Row>, released: set<nat>)

  datatype Sys = Sys(rows: seq<Row>, lock: Option<nat>, phases: map<nat, Phase>, servers: map<int, Server>)

  datatype Step =
    | Acquire(p: nat)
    | Plan(p: nat, nodes: seq<int>, ranges: seq<Range>, k: nat)
    | QueryNode(p: nat, found: Option<seq<Row>>)
    | Assign(p: nat, server: int)
    | Leave(p: nat)
    | Die(p: nat)
    | Delete(server: int)
    | Release(server: int, id: nat)
    | Add(row: Row)
    | Expire

  function PhaseOf(s: Sys, p: nat): Phase {
    if p in s.phases then s.phases[p] else Outside
  }

  // Creating a server writes its id into the rows of the block, whatever they hold.
  function Mark(rows: seq<Row>, block: seq<Row>, server: int): (r: seq<Row>)
    ensures |r| == |rows|
    ensures forall i :: 0 <= i < |rows| ==>
              r[i] == if HasId(block, rows[i].id) then rows[i].(server := Some(server)) else rows[i]
  {
    seq(|rows|, i requires 0 <= i < |rows| =>
      if HasId(block, rows[i].id) then rows[i].(server := Some(server)) else rows[i])
  }

  predicate HasId(block: seq<Row>, id: nat) {
    exists x :: x in block && x.id == id
  }

  // Deleting a server frees its rows.
  function Free(rows: seq<Row>, server: int): (r: seq<Row>)
    ensures |r| == |rows|
    ensures forall i :: 0 <= i < |rows| ==>
              r[i] == if rows[i].server == Some(server) then rows[i].(server := None) else rows[i]
  {
    seq(|rows|, i requires 0 <= i < |rows| =>
      if rows[i].server == Some(server) then rows[i].(server := None) else rows[i])
  }

  // Releasing one allocation frees its row.
  function FreeOne(rows: seq<Row>, id: nat): (r: seq<Row>)
    ensures |r| == |rows|
    ensures forall i :: 0 <= i < |rows| ==> r[i] == if rows[i].id == id then rows[i].(server := None) else rows[i]
  {
    seq(|rows|, i requires 0 <= i < |rows| => if rows[i].id == id then rows[i].(server := None) else rows[i])
  }

  ghost predicate Enabled(s: Sys, step: Step) {
    match step
    case Acquire(p) => s.lock.None? && PhaseOf(s, p).Outside?
    case Plan(p, _, _, k) => PhaseOf(s, p).Entered? && k > 0
    case QueryNode(p, found) =>
      var phase := PhaseOf(s, p);
      phase.Scanning? && phase.nodes != [] && Answers(s.rows, phase.ranges, phase.nodes[0], phase.k, found)
    case Assign(p, server) =>
      PhaseOf(s, p).Chosen? && server !in s.servers && forall x :: x in s.rows ==> x.server != Some(server)
    case Leave(p) => !PhaseOf(s, p).Outside?
    case Die(p) => !PhaseOf(s, p).Outside?
    case Delete(server) => server in s.servers
    case Release(server, id) =>
      server in s.servers && HasId(s.servers[server].block, id) && id !in s.servers[server].released
    case Add(row) => row.server.None? && Unique(s.rows + [row])
    case Expire => s.lock.Some?
  }

  // A lock is released only by its owner.
  function Next(s: Sys, step: Step): Sys {
    match step
    case Acquire(p) => s.(lock := Some(p), phases := s.phases[p := Entered])
    case Plan(p, nodes, ranges, k) => s.(phases := s.phases[p := Scanning(nodes, ranges, k)])
    case QueryNode(p, found) =>
      var phase := PhaseOf(s, p);
      if found.Some? then s.(phases := s.phases[p := Chosen(found.value)])
      else if phase.Scanning? && phase.nodes != [] then s.(phases := s.phases[p := phase.(nodes := phase.nodes[1..])])
      else s
    case Assign(p, server) =>
      var block := if PhaseOf(s, p).Chosen? then PhaseOf(s, p).block else [];
      s.(rows := Mark(s.rows, block, server), phases := s.phases[p := Leaving],
         servers := s.servers[server := Server(block, {})])
    case Leave(p) => s.(lock := if s.lock == Some(p) then None else s.lock, phases := s.phases[p := Outside])
    case Die(p) => s.(phases := s.phases[p := Outside])
    case Release(server, id) =>
      if server in s.servers then
        var was := s.servers[server];
        s.(rows := FreeOne(s.rows, id), servers := s.servers[server := was.(released := was.released + {id})])
      else s
    case Delete(server) => s.(rows := Free(s.rows, server), servers := s.servers - {server})
    case Add(row) => s.(rows := s.rows + [row])
    case Expire => s.(lock := None)
  }

  ghost predicate IsRun(s: Sys, steps: seq<Step>)
    decreases |steps|
  {
    steps == [] || (Enabled(s, steps[0]) && IsRun(Next(s, steps[0]), steps[1..]))
  }

  function After(s: Sys, steps: seq<Step>): Sys
    decreases |steps|
  {
    if steps == [] then s else After(Next(s, steps[0]), steps[1..])
  }

  // No holder outlives its lock: a lock expires only after its holder has died.
  ghost predicate Timely(s: Sys, steps: seq<Step>)
    decreases |steps|
  {
    steps == [] || ((steps[0].Expire? ==> Abandoned(s)) && Timely(Next(s, steps[0]), steps[1..]))
  }

  predicate Abandoned(s: Sys) {
    s.lock.Some? && PhaseOf(s, s.lock.value).Outside?
  }

  // ---------------------------------------------------------------------
  // The invariant.
  // ---------------------------------------------------------------------

  // Rows of one node and one address with consecutive ports.
  predicate OneBlock(block: seq<Row>) {
    && block != []
    && forall j :: 0 <= j < |block| ==>
         block[j].node == block[0].node && block[j].ip == block[0].ip && block[j].port == block[0].port + j
  }

  ghost predicate Exclusive(s: Sys) {
    forall p :: p in s.phases && !s.phases[p].Outside? ==> s.lock == Some(p)
  }

  ghost predicate StillFree(s: Sys, block: seq<Row>) {
    OneBlock(block) && forall x :: x in block ==> x in s.rows && x.server.None?
  }

  ghost predicate ChoicesFree(s: Sys) {
    forall p :: p in s.phases && s.phases[p].Chosen? ==> StillFree(s, s.phases[p].block)
  }

  // The server owns every allocation of its block that it has not released.
  ghost predicate Holds(s: Sys, server: int, held: Server) {
    && OneBlock(held.block)
    && forall x :: x in held.block && x.id !in held.released ==> x.(server := Some(server)) in s.rows
  }

  ghost predicate ServersHold(s: Sys) {
    forall server :: server in s.servers ==> Holds(s, server, s.servers[server])
  }

  ghost predicate Inv(s: Sys) {
    Unique(s.rows) && Exclusive(s) && ChoicesFree(s) && ServersHold(s)
  }

  lemma SameKeysUnique(rows: seq<Row>, rows': seq<Row>)
    requires Unique(rows) && |rows'| == |rows|
    requires forall i :: 0 <= i < |rows| ==> rows'[i] == rows[i].(server := rows'[i].server)
    ensures Unique(rows')
  {
    assert forall i :: 0 <= i < |rows| ==>
      (rows'[i].id, rows'[i].node, rows'[i].ip, rows'[i].port) == (rows[i].id, rows[i].node, rows[i].ip, rows[i].port);
  }

  lemma SameIdSameRow(rows: seq<Row>, x: Row, y: Row)
    requires Unique(rows) && x in rows && y in rows && x.id == y.id
    ensures x == y
  {
    var i :| 0 <= i < |rows| && rows[i] == x;
    var j :| 0 <= j < |rows| && rows[j] == y;
  }

  lemma BlockIsFree(s: Sys, node: int, ranges: seq<Range>, k: nat, block: seq<Row>)
    requires FirstOnNode(s.rows, ranges, node, k, block)
    ensures StillFree(s, block)
  {
    forall x | x in block
      ensures x in s.rows && x.server.None?
    {
      var j :| 0 <= j < |block| && block[j] == x;
    }
  }

  // An assignment leaves the rows of every other server alone.
  lemma MarkKeepsOthers(s: Sys, block: seq<Row>, server: int, other: int, held: Server)
    requires Unique(s.rows) && StillFree(s, block) && Holds(s, other, held)
    ensures Holds(s.(rows := Mark(s.rows, block, server)), other, held)
  {
    forall x | x in held.block && x.id !in held.released
      ensures x.(server := Some(other)) in Mark(s.rows, block, server)
    {
      var y := x.(server := Some(other));
      var i :| 0 <= i < |s.rows| && s.rows[i] == y;
      if HasId(block, y.id) {
        var z :| z in block && z.id == y.id;
        SameIdSameRow(s.rows, y, z);
      }
      assert Mark(s.rows, block, server)[i] == y;
    }
  }

  lemma MarkHolds(s: Sys, block: seq<Row>, server: int)
    requires Unique(s.rows) && StillFree(s, block)
    ensures Holds(s.(rows := Mark(s.rows, block, server)), server, Server(block, {}))
  {
    forall x | x in block
      ensures x.(server := Some(server)) in Mark(s.rows, block, server)
    {
      var i :| 0 <= i < |s.rows| && s.rows[i] == x;
      assert HasId(block, x.id);
      assert Mark(s.rows, block, server)[i] == x.(server := Some(server));
    }
  }

  lemma FreeKeepsOthers(s: Sys, server: int, other: int, held: Server)
    requires Holds(s, other, held) && other != server
    ensures Holds(s.(rows := Free(s.rows, server)), other, held)
  {
    forall x | x in held.block && x.id !in held.released
      ensures x.(server := Some(other)) in Free(s.rows, server)
    {
      var i :| 0 <= i < |s.rows| && s.rows[i] == x.(server := Some(other));
      assert Free(s.rows, server)[i] == s.rows[i];
    }
  }

  lemma FreeKeepsChoices(s: Sys, server: int, block: seq<Row>)
    requires StillFree(s, block)
    ensures StillFree(s.(rows := Free(s.rows, server)), block)
  {
    forall x | x in block
      ensures x in Free(s.rows, server)
    {
      var i :| 0 <= i < |s.rows| && s.rows[i] == x;
      assert Free(s.rows, server)[i] == x;
    }
  }

  lemma AssignKeepsInv(s: Sys, p: nat, server: int)
    requires Inv(s) && Enabled(s, Assign(p, server))
    ensures Inv(Next(s, Assign(p, server)))
  {
    hide Unique, StillFree, Holds;
    var t, block := Next(s, Assign(p, server)), PhaseOf(s, p).block;
    SameKeysUnique(s.rows, t.rows);
    MarkHolds(s, block, server);
    forall other | other in t.servers
      ensures Holds(t, other, t.servers[other])
    {
      if other != server {
        MarkKeepsOthers(s, block, server, other, s.servers[other]);
        HoldsByRows(s.(rows := t.rows), t, other, s.servers[other]);
      } else {
        HoldsByRows(s.(rows := t.rows), t, server, Server(block, {}));
      }
    }
  }

  lemma HoldsByRows(s: Sys, t: Sys, server: int, held: Server)
    requires Holds(s, server, held) && s.rows == t.rows
    ensures Holds(t, server, held)
  {
  }

  lemma DeleteKeepsInv(s: Sys, server: int)
    requires Inv(s) && Enabled(s, Delete(server))
    ensures Inv(Next(s, Delete(server)))
  {
    hide Unique, StillFree, Holds;
    var t := Next(s, Delete(server));
    SameKeysUnique(s.rows, t.rows);
    forall other | other in t.servers
      ensures Holds(t, other, t.servers[other])
    {
      FreeKeepsOthers(s, server, other, s.servers[other]);
      HoldsByRows(s.(rows := t.rows), t, other, s.servers[other]);
    }
    forall p | p in t.phases && t.phases[p].Chosen?
      ensures StillFree(t, t.phases[p].block)
    {
      FreeKeepsChoices(s, server, s.phases[p].block);
      StillFreeByRows(s.(rows := t.rows), t, s.phases[p].block);
    }
  }

  // A release leaves what every other server holds, and what the server still holds.
  lemma FreeOneKeepsHolds(s: Sys, server: int, id: nat, other: int, held: Server)
    requires Unique(s.rows) && server in s.servers && Holds(s, server, s.servers[server]) && Holds(s, other, held)
    requires HasId(s.servers[server].block, id) && id !in s.servers[server].released
    requires other == server ==> held == s.servers[server]
    ensures var kept := if other == server then held.(released := held.released + {id}) else held;
            Holds(s.(rows := FreeOne(s.rows, id)), other, kept)
  {
    var z :| z in s.servers[server].block && z.id == id;
    forall x | x in held.block && x.id !in held.released && (other == server ==> x.id != id)
      ensures x.(server := Some(other)) in FreeOne(s.rows, id)
    {
      var y := x.(server := Some(other));
      var i :| 0 <= i < |s.rows| && s.rows[i] == y;
      if y.id == id {
        SameIdSameRow(s.rows, y, z.(server := Some(server)));
      }
      assert FreeOne(s.rows, id)[i] == y;
    }
  }

  lemma FreeOneKeepsChoices(s: Sys, id: nat, block: seq<Row>)
    requires StillFree(s, block)
    ensures StillFree(s.(rows := FreeOne(s.rows, id)), block)
  {
    forall x | x in block
      ensures x in FreeOne(s.rows, id)
    {
      var i :| 0 <= i < |s.rows| && s.rows[i] == x;
      assert FreeOne(s.rows, id)[i] == x;
    }
  }

  lemma ReleaseKeepsInv(s: Sys, server: int, id: nat)
    requires Inv(s) && Enabled(s, Release(server, id))
    ensures Inv(Next(s, Release(server, id)))
  {
    hide Unique, StillFree, Holds, HasId;
    var t := Next(s, Release(server, id));
    SameKeysUnique(s.rows, t.rows);
    forall other | other in t.servers
      ensures Holds(t, other, t.servers[other])
    {
      FreeOneKeepsHolds(s, server, id, other, s.servers[other]);
      HoldsByRows(s.(rows := t.rows), t, other, t.servers[other]);
    }
    forall p | p in t.phases && t.phases[p].Chosen?
      ensures StillFree(t, t.phases[p].block)
    {
      FreeOneKeepsChoices(s, id, s.phases[p].block);
      StillFreeByRows(s.(rows := t.rows), t, s.phases[p].block);
    }
  }

  lemma StillFreeByRows(s: Sys, t: Sys, block: seq<Row>)
    requires StillFree(s, block) && s.rows <= t.rows
    ensures StillFree(t, block)
  {
  }

  lemma AddKeepsInv(s: Sys, row: Row)
    requires Inv(s) && Enabled(s, Add(row))
    ensures Inv(Next(s, Add(row)))
  {
    hide Unique;
    var t := Next(s, Add(row));
    assert forall x :: x in s.rows ==> x in t.rows;
  }

  lemma StepKeepsInv(s: Sys, step: Step)
    requires Inv(s) && Enabled(s, step) && (step.Expire? ==> Abandoned(s))
    ensures Inv(Next(s, step))
  {
    hide Unique, FirstOnNode, NoBlock, StillFree, Holds;
    var t := Next(s, step);
    match step {
      case Assign(p, server) => AssignKeepsInv(s, p, server);
      case Delete(server) => DeleteKeepsInv(s, server);
      case Add(row) => AddKeepsInv(s, row);
      case Plan(p, nodes, ranges, k) => SameRowsKeep(s, t);
      case QueryNode(p, found) =>
        var phase := PhaseOf(s, p);
        SameRowsKeep(s, t);
        if found.Some? {
          BlockIsFree(s, phase.nodes[0], phase.ranges, phase.k, found.value);
          StillFreeByRows(s, t, found.value);
        }
      case Acquire(p) => SameRowsKeep(s, t);
      case Leave(p) => SameRowsKeep(s, t);
      case Die(p) => SameRowsKeep(s, t);
      case Expire => SameRowsKeep(s, t);
      case Release(server, id) => ReleaseKeepsInv(s, server, id);
    }
  }

  lemma SameRowsKeep(s: Sys, t: Sys)
    requires ChoicesFree(s) && ServersHold(s) && t.rows == s.rows && t.servers == s.servers
    ensures ServersHold(t)
    ensures forall p :: p in s.phases && s.phases[p].Chosen? ==> StillFree(t, s.phases[p].block)
  {
  }

  lemma {:induction false} RunKeepsInv(s: Sys, steps: seq<Step>)
    requires Inv(s) && IsRun(s, steps) && Timely(s, steps)
    ensures Inv(After(s, steps))
    decreases |steps|
  {
    hide Inv, Enabled;
    if steps != [] {
      StepKeepsInv(s, steps[0]);
      RunKeepsInv(Next(s, steps[0]), steps[1..]);
    }
  }

  ghost predicate Initial(s: Sys) {
    Unique(s.rows) && s.lock.None? && s.phases == map[] && s.servers == map[]
  }

  // However creations, their queries, deaths, deletions, releases and pool completion
  // interleave, no allocation belongs to two servers: each was given one consecutive block and
  // owns what it has not released of it.
  lemma NoPortIsShared(s: Sys, steps: seq<Step>, a: int, b: int, x: Row, y: Row)
    requires Initial(s) && IsRun(s, steps) && Timely(s, steps)
    requires var t := After(s, steps);
             a in t.servers && b in t.servers && x.id == y.id
             && x in t.servers[a].block && x.id !in t.servers[a].released
             && y in t.servers[b].block && y.id !in t.servers[b].released
    ensures a == b
    ensures OneBlock(After(s, steps).servers[a].block)
    ensures x.(server := Some(a)) in After(s, steps).rows
  {
    hide Unique;
    RunKeepsInv(s, steps);
    var t := After(s, steps);
    SameIdSameRow(t.rows, x.(server := Some(a)), y.(server := Some(b)));
  }

  // ---------------------------------------------------------------------
  // What a server owns, and who may enter next.
  // ---------------------------------------------------------------------

  // A server owns only allocations of its block that it has not released.
  ghost predicate OwnsOnly(s: Sys) {
    forall x :: x in s.rows && x.server.Some? && x.server.value in s.servers ==>
                  var held := s.servers[x.server.value];
                  HasId(held.block, x.id) && x.id !in held.released
  }

  lemma StepKeepsOwnsOnly(s: Sys, step: Step)
    requires OwnsOnly(s) && Enabled(s, step)
    ensures OwnsOnly(Next(s, step))
  {
    hide HasId;
    var t := Next(s, step);
    forall x | x in t.rows && x.server.Some? && x.server.value in t.servers
      ensures HasId(t.servers[x.server.value].block, x.id) && x.id !in t.servers[x.server.value].released
    {
      var i :| 0 <= i < |t.rows| && t.rows[i] == x;
      if i < |s.rows| {
        assert s.rows[i] in s.rows;
      }
    }
  }

  lemma {:induction false} RunKeepsOwnsOnly(s: Sys, steps: seq<Step>)
    requires OwnsOnly(s) && IsRun(s, steps)
    ensures OwnsOnly(After(s, steps))
    decreases |steps|
  {
    hide OwnsOnly, Enabled, Next;
    if steps != [] {
      StepKeepsOwnsOnly(s, steps[0]);
      RunKeepsOwnsOnly(Next(s, steps[0]), steps[1..]);
    }
  }

  // At every point a server owns exactly the allocations of its block that it has not released.
  lemma OwnedExactly(s: Sys, steps: seq<Step>, server: int, x: Row)
    requires Initial(s) && IsRun(s, steps) && Timely(s, steps)
    requires server in After(s, steps).servers && x in After(s, steps).rows
    ensures x.server == Some(server) <==>
              var held := After(s, steps).servers[server];
              (exists y :: y in held.block && y.id == x.id) && x.id !in held.released
  {
    hide Unique;
    RunKeepsInv(s, steps);
    RunKeepsOwnsOnly(s, steps);
    var t := After(s, steps);
    var held := t.servers[server];
    if y :| y in held.block && y.id == x.id && x.id !in held.released {
      SameIdSameRow(t.rows, x, y.(server := Some(server)));
    }
  }

  // Deleting a server leaves no allocation with it and takes none from another.
  lemma DeletedOwnsNothing(s: Sys, server: int, x: Row)
    ensures x in Next(s, Delete(server)).rows ==> x.server != Some(server)
    ensures x in s.rows && x.server != Some(server) ==> x in Next(s, Delete(server)).rows
    ensures x in s.rows && x.server == Some(server) ==> x.(server := None) in Next(s, Delete(server)).rows
    ensures |Next(s, Delete(server)).rows| == |s.rows| && server !in Next(s, Delete(server)).servers
  {
    var t := Next(s, Delete(server));
    if x in s.rows {
      var i :| 0 <= i < |s.rows| && s.rows[i] == x;
      assert t.rows[i] in t.rows;
    }
  }

  // A creation that leaves, whatever it reached, has the lock and gives it back: any next one
  // enters.  One whose lock has expired and gone to another leaves that one its lock.
  lemma LeavingLetsTheNextIn(s: Sys, steps: seq<Step>, p: nat, q: nat)
    requires Initial(s) && IsRun(s, steps) && Timely(s, steps)
    requires p in After(s, steps).phases && !After(s, steps).phases[p].Outside?
    ensures After(s, steps).lock == Some(p)
    ensures var t := Next(After(s, steps), Leave(p));
            && t.lock == None && Enabled(t, Acquire(q))
            && Next(t, Acquire(q)).lock == Some(q) && Next(t, Acquire(q)).phases[q].Entered?
    ensures forall t: Sys :: t.lock.Some? && t.lock.value != p ==> Next(t, Leave(p)).lock == t.lock
  {
    hide Unique, StillFree, Holds;
    RunKeepsInv(s, steps);
  }

  // A creation that dies keeps everyone out until its lock expires, which is then timely.
  lemma DeathBlocksUntilExpiry(s: Sys, steps: seq<Step>, p: nat, q: nat)
    requires Initial(s) && IsRun(s, steps) && Timely(s, steps)
    requires p in After(s, steps).phases && !After(s, steps).phases[p].Outside?
    ensures var t := Next(After(s, steps), Die(p));
            && t.lock == Some(p) && !Enabled(t, Acquire(q)) && Enabled(t, Expire) && Timely(t, [Expire])
            && Enabled(Next(t, Expire), Acquire(q))
  {
    hide Unique, StillFree, Holds;
    RunKeepsInv(s, steps);
    assert [Expire][1..] == [];
  }

  // ---------------------------------------------------------------------
  // Where the chosen block stands among the others.
  // ---------------------------------------------------------------------

  // Only the creation p moves, and only through its queries.
  predicate QuietQueries(p: nat, steps: seq<Step>) {
    forall i :: 0 <= i < |steps| ==> steps[i].QueryNode? && steps[i].p == p
  }

  // With nothing else between its queries, a creation chooses the first fit of its nodes.
  lemma {:induction false} QuietScanIsFirstFit(s: Sys, p: nat, steps: seq<Step>, nodes: seq<int>, n: nat,
                                               ranges: seq<Range>, k: nat, block: seq<Row>)
    requires n <= |nodes| && PhaseOf(s, p) == Scanning(nodes[n..], ranges, k)
    requires NoBlockBefore(s.rows, ranges, nodes, n, k)
    requires IsRun(s, steps) && QuietQueries(p, steps) && PhaseOf(After(s, steps), p) == Chosen(block)
    ensures After(s, steps).rows == s.rows && FirstFit(s.rows, ranges, nodes, k, block)
    decreases |steps|
  {
    hide FirstOnNode, NoBlock;
    var found, t := steps[0].found, Next(s, steps[0]);
    assert nodes[n..][0] == nodes[n];
    if found.Some? {
      ChosenStays(t, p, steps[1..]);
      assert FirstOnNode(s.rows, ranges, nodes[n], k, block);
    } else {
      assert nodes[n..][1..] == nodes[n + 1..];
      QuietScanIsFirstFit(t, p, steps[1..], nodes, n + 1, ranges, k, block);
    }
  }

  lemma ChosenStays(s: Sys, p: nat, steps: seq<Step>)
    requires PhaseOf(s, p).Chosen? && IsRun(s, steps) && QuietQueries(p, steps)
    ensures steps == []
  {
  }

  // No row of the node becomes free or is added.
  ghost predicate NothingFreed(s: Sys, t: Sys, node: int, ranges: seq<Range>) {
    forall x :: x in t.rows && Available(x, node, ranges) ==> x in s.rows
  }

  lemma NoBlockStays(s: Sys, t: Sys, node: int, ranges: seq<Range>, k: nat)
    requires NoBlock(s.rows, ranges, node, k) && NothingFreed(s, t, node, ranges)
    ensures NoBlock(t.rows, ranges, node, k)
  {
    forall ip, start
      ensures !BlockAt(t.rows, ranges, node, ip, start, k)
    {
      if BlockAt(t.rows, ranges, node, ip, start, k) {
        forall port | start <= port < start + k
          ensures FreeAt(s.rows, ranges, node, ip, port)
        {
          assert FreeAt(t.rows, ranges, node, ip, port);
        }
        assert BlockAt(s.rows, ranges, node, ip, start, k);
      }
    }
  }

  predicate DistinctNodes(nodes: seq<int>) {
    forall i, j :: 0 <= i < j < |nodes| ==> nodes[i] != nodes[j]
  }

  // The block found at a query is the first fit of that instant exactly when no node queried
  // before has a block by then.
  lemma FirstFitExactly(rows: seq<Row>, nodes: seq<int>, n: nat, ranges: seq<Range>, k: nat, block: seq<Row>)
    requires DistinctNodes(nodes) && n < |nodes| && FirstOnNode(rows, ranges, nodes[n], k, block)
    ensures FirstFit(rows, ranges, nodes, k, block) <==> NoBlockBefore(rows, ranges, nodes, n, k)
  {
    if FirstFit(rows, ranges, nodes, k, block) {
      var m :| 0 <= m < |nodes| && FirstOnNode(rows, ranges, nodes[m], k, block)
        && NoBlockBefore(rows, ranges, nodes, m, k);
      assert block[0].node == nodes[m] && block[0].node == nodes[n];
    }
  }

  // From its n-th node on, a creation queries until it chooses a block, and no row of a node
  // queried before becomes free or is added meanwhile, whatever else happens.
  ghost predicate ScansOn(s: Sys, p: nat, steps: seq<Step>, nodes: seq<int>, n: nat, ranges: seq<Range>)
    decreases |steps|
  {
    && steps != [] && n < |nodes|
    && var t := Next(s, steps[0]);
       if steps[0].QueryNode? && steps[0].p == p then
         if steps[0].found.Some? then |steps| == 1 else ScansOn(t, p, steps[1..], nodes, n + 1, ranges)
       else
         && PhaseOf(t, p) == PhaseOf(s, p)
         && (forall m :: 0 <= m < n ==> NothingFreed(s, t, nodes[m], ranges))
         && ScansOn(t, p, steps[1..], nodes, n, ranges)
  }

  // Then the chosen block is the first fit of the instant of its query.
  lemma {:induction false} ScanIsFirstFit(s: Sys, p: nat, steps: seq<Step>, nodes: seq<int>, n: nat,
                                          ranges: seq<Range>, k: nat)
    returns (block: seq<Row>)
    requires n <= |nodes| && PhaseOf(s, p) == Scanning(nodes[n..], ranges, k)
    requires NoBlockBefore(s.rows, ranges, nodes, n, k)
    requires IsRun(s, steps) && ScansOn(s, p, steps, nodes, n, ranges)
    ensures PhaseOf(After(s, steps), p) == Chosen(block) && FirstFit(After(s, steps).rows, ranges, nodes, k, block)
    decreases |steps|
  {
    hide FirstOnNode, NoBlock, NothingFreed, Available;
    var step, t := steps[0], Next(s, steps[0]);
    assert nodes[n..][0] == nodes[n] && nodes[n..][1..] == nodes[n + 1..];
    if step.QueryNode? && step.p == p {
      if step.found.Some? {
        block := step.found.value;
        assert steps[1..] == [];
        assert FirstOnNode(s.rows, ranges, nodes[n], k, block);
      } else {
        block := ScanIsFirstFit(t, p, steps[1..], nodes, n + 1, ranges, k);
      }
    } else {
      forall m | 0 <= m < n
        ensures NoBlock(t.rows, ranges, nodes[m], k)
      {
        NoBlockStays(s, t, nodes[m], ranges, k);
      }
      block := ScanIsFirstFit(t, p, steps[1..], nodes, n, ranges, k);
    }
  }

  // The port at a node's only address, owned by a server or by nobody.
  function OnePort(node: int, server: Option<int>): Row {
    Row(if node == 1 then 1 else 2, node, 1, 28000, server, false)
  }

  const ONE_RANGE: seq<Range> := [(28000, 28000)]

  // Two nodes with one port each.
  function TwoNodes(a: Option<int>, b: Option<int>): seq<Row> {
    [OnePort(1, a), OnePort(2, b)]
  }

  lemma OnlyBlock(a: Option<int>, b: Option<int>, node: int)
    requires node == 1 || node == 2
    ensures var free := if node == 1 then a.None? else b.None?;
            Answers(TwoNodes(a, b), ONE_RANGE, node, 1, if free then Some([OnePort(node, None)]) else None)
  {
    var rows := TwoNodes(a, b);
    assert rows[0] == OnePort(1, a) && rows[1] == OnePort(2, b);
    assert ONE_RANGE[0] == (28000, 28000);
    forall ip, start | BlockAt(rows, ONE_RANGE, node, ip, start, 1)
      ensures ip == 1 && start == 28000 && (if node == 1 then a.None? else b.None?)
    {
      assert FreeAt(rows, ONE_RANGE, node, ip, start);
    }
  }

  // At no instant of a run is the block the first fit of the two nodes.
  ghost predicate NeverFirstFit(s: Sys, steps: seq<Step>, block: seq<Row>)
    decreases |steps|
  {
    !FirstFit(s.rows, ONE_RANGE, [1, 2], 1, block)
      && (steps == [] || NeverFirstFit(Next(s, steps[0]), steps[1..], block))
  }

  lemma SecondNodeIsNotFirst(a: Option<int>, b: Option<int>)
    requires a.None? || b.Some?
    ensures !FirstFit(TwoNodes(a, b), ONE_RANGE, [1, 2], 1, [OnePort(2, None)])
  {
    var rows, block := TwoNodes(a, b), [OnePort(2, None)];
    assert block[0].node == 2;
    OnlyBlock(a, b, 1);
    if FirstFit(rows, ONE_RANGE, [1, 2], 1, block) {
      var n :| 0 <= n < 2 && FirstOnNode(rows, ONE_RANGE, [1, 2][n], 1, block)
        && NoBlockBefore(rows, ONE_RANGE, [1, 2], n, 1);
      assert n == 1 ==> NoBlock(rows, ONE_RANGE, [1, 2][0], 1);
      assert block[0] in rows;
      if a.None? {
        FirstIsBlock(rows, ONE_RANGE, 1, 1, [OnePort(1, None)]);
      }
    }
  }

  /**
    First fit does not survive a release between two queries: both nodes are full, the first
    is queried, then both servers are deleted, and the creation takes the second node's port,
    which is the first fit at no instant of the run.
   */
  lemma ReleaseBetweenQueries() returns (s: Sys, steps: seq<Step>, block: seq<Row>)
    ensures Inv(s) && IsRun(s, steps) && Timely(s, steps)
    ensures PhaseOf(s, 1).Outside? && PhaseOf(After(s, steps), 1) == Chosen(block)
    ensures NeverFirstFit(s, steps, block)
  {
    hide FirstFit, Answers, Inv;
    block := [OnePort(2, None)];
    s := Sys(TwoNodes(Some(5), Some(6)), None, map[], map[5 := Server([OnePort(1, None)], {}), 6 := Server(block, {})]);
    FullNodesKeepInv(s);
    var s1 := Next(s, Acquire(1));
    var s2 := Next(s1, Plan(1, [1, 2], ONE_RANGE, 1));
    OnlyBlock(Some(5), Some(6), 1);
    var s3 := Next(s2, QueryNode(1, None));
    var s4 := Next(s3, Delete(5));
    assert s4.rows == TwoNodes(None, Some(6));
    var s5 := Next(s4, Delete(6));
    assert s5.rows == TwoNodes(None, None);
    assert [1, 2][1..] == [2];
    OnlyBlock(None, None, 2);
    var s6 := Next(s5, QueryNode(1, Some(block)));
    SecondNodeIsNotFirst(Some(5), Some(6));
    SecondNodeIsNotFirst(None, Some(6));
    SecondNodeIsNotFirst(None, None);
    steps := [];
    steps := PrependUnfit(s5, s6, QueryNode(1, Some(block)), steps, block);
    steps := PrependUnfit(s4, s6, Delete(6), steps, block);
    steps := PrependUnfit(s3, s6, Delete(5), steps, block);
    steps := PrependUnfit(s2, s6, QueryNode(1, None), steps, block);
    steps := PrependUnfit(s1, s6, Plan(1, [1, 2], ONE_RANGE, 1), steps, block);
    steps := PrependUnfit(s, s6, Acquire(1), steps, block);
  }

  lemma FullNodesKeepInv(s: Sys)
    requires s == Sys(TwoNodes(Some(5), Some(6)), None, map[],
              map[5 := Server([OnePort(1, None)], {}), 6 := Server([OnePort(2, None)], {})])
    ensures Inv(s)
  {
    assert s.rows[0] == OnePort(1, Some(5)) && s.rows[1] == OnePort(2, Some(6));
  }

  lemma PrependUnfit(s: Sys, end: Sys, step: Step, steps: seq<Step>, block: seq<Row>) returns (more: seq<Step>)
    requires Enabled(s, step) && IsRun(Next(s, step), steps) && After(Next(s, step), steps) == end
    requires NeverFirstFit(Next(s, step), steps, block) && !FirstFit(s.rows, ONE_RANGE, [1, 2], 1, block)
    requires !step.Expire? && Timely(Next(s, step), steps)
    ensures IsRun(s, more) && After(s, more) == end && NeverFirstFit(s, more, block) && Timely(s, more)
  {
    hide Enabled, Next, FirstFit;
    more := [step] + steps;
    assert more[1..] == steps;
  }

  // If a lock expires under its holder, two creations can be given the same ports.
  lemma ExpiredLockSharesPorts(s: Sys, node: int, ranges: seq<Range>, k: nat, block: seq<Row>, a: int, b: int)
    returns (steps: seq<Step>)
    requires Initial(s) && FirstOnNode(s.rows, ranges, node, k, block) && a != b
    requires forall x :: x in s.rows ==> x.server != Some(a) && x.server != Some(b)
    ensures IsRun(s, steps) && After(s, steps).servers == map[a := Server(block, {}), b := Server(block, {})]
  {
    hide Unique, FirstOnNode;
    assert k > 0 by {
      FirstIsBlock(s.rows, ranges, node, k, block);
    }
    var s1, more := ChoosesBlock(s, 1, node, ranges, k, block);
    var s2 := Next(s1, Expire);
    var s3, others := ChoosesBlock(s2, 2, node, ranges, k, block);
    var s4 := Next(s3, Assign(1, a));
    forall x | x in s4.rows
      ensures x.server != Some(b)
    {
      var i :| 0 <= i < |s4.rows| && s4.rows[i] == x;
      assert s3.rows[i] in s.rows;
    }
    var s5 := Next(s4, Assign(2, b));
    assert s5.servers == map[a := Server(block, {}), b := Server(block, {})];
    steps := [];
    steps := Prepend(s4, s5, Assign(2, b), steps);
    steps := Prepend(s3, s5, Assign(1, a), steps);
    steps := Joined(s2, s3, s5, others, steps);
    steps := Prepend(s1, s5, Expire, steps);
    steps := Joined(s, s1, s5, more, steps);
  }

  // A creation that finds the lock free enters and chooses the first block of its node.
  lemma ChoosesBlock(s: Sys, p: nat, node: int, ranges: seq<Range>, k: nat, block: seq<Row>)
    returns (t: Sys, steps: seq<Step>)
    requires s.lock.None? && PhaseOf(s, p).Outside? && k > 0 && FirstOnNode(s.rows, ranges, node, k, block)
    ensures IsRun(s, steps) && After(s, steps) == t
    ensures t == s.(lock := Some(p), phases := t.phases) && t.phases == s.phases[p := Chosen(block)]
  {
    hide FirstOnNode;
    var s1 := Next(s, Acquire(p));
    var s2 := Next(s1, Plan(p, [node], ranges, k));
    t := Next(s2, QueryNode(p, Some(block)));
    steps := Prepend(s2, t, QueryNode(p, Some(block)), []);
    steps := Prepend(s1, t, Plan(p, [node], ranges, k), steps);
    steps := Prepend(s, t, Acquire(p), steps);
  }

  lemma Prepend(s: Sys, end: Sys, step: Step, steps: seq<Step>) returns (more: seq<Step>)
    requires Enabled(s, step) && IsRun(Next(s, step), steps) && After(Next(s, step), steps) == end
    ensures IsRun(s, more) && After(s, more) == end
  {
    hide Enabled;
    more := [step] + steps;
    assert more[1..] == steps;
  }

  lemma {:induction false} Joined(s: Sys, middle: Sys, end: Sys, steps: seq<Step>, more: seq<Step>)
    returns (all: seq<Step>)
    requires IsRun(s, steps) && After(s, steps) == middle
    requires IsRun(middle, more) && After(middle, more) == end
    ensures IsRun(s, all) && After(s, all) == end
    decreases |steps|
  {
    hide Enabled, Next;
    if steps == [] {
      all := more;
    } else {
      all := Joined(Next(s, steps[0]), middle, end, steps[1..], more);
      all := Prepend(s, end, steps[0], all);
    }
  }
}
