/**
  The run-capacity gate of the Renovate queue precheck: validity of workflow run
  snapshots, the count of active runs, and why counting status by status does not miss a
  run that changes status meanwhile.
 */
module RenovateGate {
  import opened Wrappers

  datatype Json =
    | Null
    | Bool(b: bool)
    | Num(n: int)
    | Str(s: string)
    | List(items: seq<Json>)
    | Obj(fields: map<string, Json>)

  // The interpreter's refusal to use a list or an object as a set member or key, to read a
  // missing key, or to index something that is not an object.
  datatype Crash = Crash

  const MAX_ACTIVE_RUNS: nat := 12
  const SNAPSHOT_LIMIT: nat := 1000

  const QUERY_ORDER: seq<string> := ["requested", "pending", "queued", "waiting", "in_progress"]

  predicate Active(status: string) {
    status in QUERY_ORDER
  }

  predicate Known(status: string) {
    Active(status) || status == "completed"
  }

  function Field(run: Json, name: string): Json {
    if run.Obj? && name in run.fields then run.fields[name] else Null
  }

  predicate Hashable(v: Json) {
    !v.List? && !v.Obj?
  }

  // ---------------------------------------------------------------------
  // Snapshot validity.
  // ---------------------------------------------------------------------

  predicate RunOk(run: Json, expected: Option<string>) {
    && run.Obj?
    && Id(run).Num?
    && Field(run, "status").Str? && Known(Field(run, "status").s)
    && (expected.Some? ==> Field(run, "status").s == expected.value)
  }

  function Id(run: Json): Json {
    Field(run, "databaseId")
  }

  predicate NewId(runs: seq<Json>, i: nat)
    requires i < |runs|
  {
    forall j :: 0 <= j < i ==> Id(runs[j]) != Id(runs[i])
  }

  // The first n runs are fine and have distinct ids.
  predicate FineUpTo(runs: seq<Json>, expected: Option<string>, n: nat)
    requires n <= |runs|
  {
    forall i :: 0 <= i < n ==> RunOk(runs[i], expected) && NewId(runs, i)
  }

  // A list of runs with distinct ids and known statuses.
  predicate RunsOk(runs: Json, expected: Option<string>) {
    runs.List? && FineUpTo(runs.items, expected, |runs.items|)
  }

  // The runs before the i-th are fine, its id is a new integer, and its status cannot be
  // looked up in a set.
  predicate RefusedAt(runs: seq<Json>, expected: Option<string>, i: nat)
    requires i < |runs|
  {
    FineUpTo(runs, expected, i) && NewId(runs, i) && runs[i].Obj? && Id(runs[i]).Num?
      && !Hashable(Field(runs[i], "status"))
  }

  predicate Refused(runs: Json, expected: Option<string>) {
    runs.List? && exists i :: 0 <= i < |runs.items| && RefusedAt(runs.items, expected, i)
  }

  // The same in plain terms: objects with distinct integer ids, and statuses among the six.
  ghost predicate WellFormed(runs: Json, expected: Option<string>) {
    && runs.List?
    && (forall run :: run in runs.items ==>
          && run.Obj? && "databaseId" in run.fields && run.fields["databaseId"].Num?
          && "status" in run.fields && run.fields["status"].Str?
          && run.fields["status"].s in {"requested", "pending", "queued", "waiting", "in_progress", "completed"}
          && (expected.Some? ==> run.fields["status"].s == expected.value))
    && (forall i, j :: 0 <= i < j < |runs.items| ==>
          runs.items[i].fields["databaseId"] != runs.items[j].fields["databaseId"])
  }

  lemma KnownExactly(status: string)
    ensures Active(status) <==> status in {"requested", "pending", "queued", "waiting", "in_progress"}
    ensures Known(status) <==> status in {"requested", "pending", "queued", "waiting", "in_progress", "completed"}
  {
    assert QUERY_ORDER[0] == "requested" && QUERY_ORDER[1] == "pending" && QUERY_ORDER[2] == "queued";
    assert QUERY_ORDER[3] == "waiting" && QUERY_ORDER[4] == "in_progress";
  }

  lemma RunOkExactly(run: Json, expected: Option<string>)
    ensures RunOk(run, expected) <==>
            && run.Obj? && "databaseId" in run.fields && run.fields["databaseId"].Num?
            && "status" in run.fields && run.fields["status"].Str?
            && run.fields["status"].s in {"requested", "pending", "queued", "waiting", "in_progress", "completed"}
            && (expected.Some? ==> run.fields["status"].s == expected.value)
  {
    hide Known;
    if run.Obj? && "status" in run.fields && run.fields["status"].Str? {
      KnownExactly(run.fields["status"].s);
    }
  }

  lemma RunsOkExactly(runs: Json, expected: Option<string>)
    ensures RunsOk(runs, expected) <==> WellFormed(runs, expected)
  {
    hide RunOk, Known;
    if runs.List? {
      forall run
        ensures RunOk(run, expected) <==>
                && run.Obj? && "databaseId" in run.fields && run.fields["databaseId"].Num?
                && "status" in run.fields && run.fields["status"].Str?
                && run.fields["status"].s in {"requested", "pending", "queued", "waiting", "in_progress", "completed"}
                && (expected.Some? ==> run.fields["status"].s == expected.value)
      {
        RunOkExactly(run, expected);
      }
      if WellFormed(runs, expected) {
        assert FineUpTo(runs.items, expected, |runs.items|);
      }
    }
  }

  // The first run that is not fine decides.
  lemma FirstBad(runs: seq<Json>, expected: Option<string>, i: nat)
    requires i < |runs| && FineUpTo(runs, expected, i) && !(RunOk(runs[i], expected) && NewId(runs, i))
    ensures !FineUpTo(runs, expected, |runs|)
    ensures Refused(List(runs), expected) <==> RefusedAt(runs, expected, i)
  {
    hide RunOk, NewId;
    forall m | 0 <= m < |runs| && RefusedAt(runs, expected, m)
      ensures m == i
    {
      if m < i {
        OkIsHashable(runs[m], expected);
      }
    }
  }

  lemma OkIsHashable(j: Json, expected: Option<string>)
    requires RunOk(j, expected)
    ensures j.Obj? && Hashable(Field(j, "status")) && "databaseId" in j.fields && Hashable(j.fields["databaseId"])
    ensures RunOk(j, None)
  {
  }

  lemma RunsOkIsNotRefused(runs: Json, expected: Option<string>)
    ensures !(RunsOk(runs, expected) && Refused(runs, expected))
  {
    hide RunOk, NewId;
    if RunsOk(runs, expected) {
      forall i | 0 <= i < |runs.items|
        ensures !RefusedAt(runs.items, expected, i)
      {
        OkIsHashable(runs.items[i], expected);
      }
    }
  }

  method WorkflowRunsValid(runs: Json, expected: Option<string>) returns (r: Result<bool, Crash>)
    ensures r == Success(true) <==> RunsOk(runs, expected)
    ensures r == Success(true) <==> WellFormed(runs, expected)
    ensures r.Failure? <==> Refused(runs, expected)
  {
    hide NewId, FineUpTo, Refused, WellFormed;
    RunsOkExactly(runs, expected);
    if !runs.List? {
      NoListIsRefused(runs, expected);
      return Success(false);
    }
    var seen: set<int> := {};
    NothingSeen(runs.items, expected);
    for i := 0 to |runs.items|
      invariant FineUpTo(runs.items, expected, i) && SeenUpTo(runs.items, seen, i)
    {
      var run := runs.items[i];
      if !run.Obj? {
        FirstBad(runs.items, expected, i);
        return Success(false);
      }
      var id, status := Id(run), Field(run, "status");
      SeenIds(runs.items, seen, i);
      if !id.Num? || id.n in seen {
        FirstBad(runs.items, expected, i);
        return Success(false);
      }
      if !Hashable(status) {
        FirstBad(runs.items, expected, i);
        return Failure(Crash);
      }
      if !status.Str? || !Known(status.s) || (expected.Some? && status.s != expected.value) {
        FirstBad(runs.items, expected, i);
        return Success(false);
      }
      OneMoreSeen(runs.items, expected, seen, i);
      seen := seen + {id.n};
    }
    RunsOkIsNotRefused(runs, expected);
    r := Success(true);
  }

  ghost predicate SeenUpTo(runs: seq<Json>, seen: set<int>, n: nat)
    requires n <= |runs|
  {
    forall id :: id in seen <==> exists j :: 0 <= j < n && Id(runs[j]) == Num(id)
  }

  lemma NoListIsRefused(runs: Json, expected: Option<string>)
    ensures !runs.List? ==> !Refused(runs, expected)
  {
  }

  lemma NothingSeen(runs: seq<Json>, expected: Option<string>)
    ensures FineUpTo(runs, expected, 0) && SeenUpTo(runs, {}, 0)
  {
  }

  lemma SeenIds(runs: seq<Json>, seen: set<int>, i: nat)
    requires i < |runs| && SeenUpTo(runs, seen, i)
    ensures Id(runs[i]).Num? ==> (NewId(runs, i) <==> Id(runs[i]).n !in seen)
  {
  }

  lemma OneMoreSeen(runs: seq<Json>, expected: Option<string>, seen: set<int>, i: nat)
    requires i < |runs| && FineUpTo(runs, expected, i) && SeenUpTo(runs, seen, i)
    requires RunOk(runs[i], expected) && NewId(runs, i)
    ensures FineUpTo(runs, expected, i + 1) && SeenUpTo(runs, seen + {Id(runs[i]).n}, i + 1)
  {
    hide NewId;
  }

  // ---------------------------------------------------------------------
  // The gate.
  // ---------------------------------------------------------------------

  function Items(snapshot: Json): seq<Json> {
    if snapshot.List? then snapshot.items else []
  }

  // The active runs of the recent snapshot.
  function ActiveRuns(runs: seq<Json>): Result<seq<Json>, Crash> {
    if runs == [] then Success([])
    else
      var head, status := runs[0], Field(runs[0], "status");
      if head.Obj? && !Hashable(status) then Failure(Crash)
      else
        var rest :- ActiveRuns(runs[1..]);
        Success(if head.Obj? && status.Str? && Active(status.s) then [head] + rest else rest)
  }

  // The keys of the dictionary that merges the runs by id.
  function RunIds(runs: seq<Json>): Result<set<Json>, Crash> {
    if runs == [] then Success({})
    else if !runs[0].Obj? || "databaseId" !in runs[0].fields || !Hashable(runs[0].fields["databaseId"]) then
      Failure(Crash)
    else
      var rest :- RunIds(runs[1..]);
      Success({runs[0].fields["databaseId"]} + rest)
  }

  function Flatten(snapshots: seq<Json>): seq<Json> {
    if snapshots == [] then [] else Items(snapshots[0]) + Flatten(snapshots[1..])
  }

  datatype Inputs = Inputs(
    recent: Json, older: seq<Json>,
    quotaOk: bool, graphqlQuotaOk: bool, identityComplete: bool)

  datatype Blocker = CoreQuota | GraphqlQuota | RunCapacity | SnapshotMalformed | SnapshotTruncated | IdentityIncomplete

  datatype Verdict = Verdict(count: nat, allowed: bool, blockers: seq<Blocker>)

  function Also(blocked: bool, b: Blocker, rest: seq<Blocker>): (r: seq<Blocker>)
    ensures forall c :: c in r <==> c in rest || (blocked && c == b)
    ensures r == [] <==> !blocked && rest == []
  {
    if blocked then [b] + rest else rest
  }

  function Report(core: bool, graphql: bool, capacity: bool, malformed: bool, truncated: bool,
                  identity: bool): (r: seq<Blocker>)
    ensures r == [] <==> !core && !graphql && !capacity && !malformed && !truncated && !identity
    ensures CoreQuota in r <==> core
    ensures GraphqlQuota in r <==> graphql
    ensures RunCapacity in r <==> capacity
    ensures SnapshotMalformed in r <==> malformed
    ensures SnapshotTruncated in r <==> truncated
    ensures IdentityIncomplete in r <==> identity
  {
    hide Also;
    Also(core, CoreQuota, Also(graphql, GraphqlQuota, Also(capacity, RunCapacity,
      Also(malformed, SnapshotMalformed, Also(truncated, SnapshotTruncated, Also(identity, IdentityIncomplete, []))))))
  }

  // The ids counted after merging the snapshots.
  function Counted(x: Inputs): Result<set<Json>, Crash> {
    var active :- ActiveRuns(Items(x.recent));
    RunIds(active + Flatten(x.older))
  }

  // The object bears the id.
  ghost predicate HasId(run: Json, id: Json) {
    run.Obj? && "databaseId" in run.fields && run.fields["databaseId"] == id
  }

  // The object bears an active status.
  ghost predicate HasActiveStatus(run: Json) {
    && run.Obj? && "status" in run.fields
    && run.fields["status"] in
         {Str("requested"), Str("pending"), Str("queued"), Str("waiting"), Str("in_progress")}
  }

  // Some active run of the recent snapshot has the id, or some run of an older snapshot.
  ghost predicate Counts(x: Inputs, id: Json) {
    || (x.recent.List? && exists run :: run in x.recent.items && HasId(run, id) && HasActiveStatus(run))
    || (exists i, run :: 0 <= i < |x.older| && x.older[i].List? && run in x.older[i].items && HasId(run, id))
  }

  // Exactly those ids are counted, each once.
  lemma CountedExactly(x: Inputs, id: Json)
    requires Counted(x).Success?
    ensures id in Counted(x).value <==> Counts(x, id)
  {
    hide ActiveRuns, RunIds, Flatten, HasId, HasActiveStatus;
    var active := ActiveRuns(Items(x.recent)).value;
    RunIdsExactly(active + Flatten(x.older), id);
    forall run
      ensures run in active <==> run in Items(x.recent) && HasActiveStatus(run)
      ensures run in Flatten(x.older) <==> exists i :: 0 <= i < |x.older| && run in Items(x.older[i])
    {
      ActiveRunsExactly(Items(x.recent), run);
      FlattenExactly(x.older, run);
    }
  }

  lemma {:induction false} RunIdsExactly(runs: seq<Json>, id: Json)
    requires RunIds(runs).Success?
    ensures id in RunIds(runs).value <==> exists run :: run in runs && HasId(run, id)
  {
    if runs != [] {
      RunIdsExactly(runs[1..], id);
      assert HasId(runs[0], id) <==> runs[0].fields["databaseId"] == id;
      if run :| run in runs && HasId(run, id) {
        assert run == runs[0] || run in runs[1..];
      }
      if run :| run in runs[1..] && HasId(run, id) {
        assert run in runs;
      }
      assert runs[0] in runs;
    }
  }

  lemma {:induction false} ActiveRunsExactly(runs: seq<Json>, run: Json)
    requires ActiveRuns(runs).Success?
    ensures run in ActiveRuns(runs).value <==> run in runs && HasActiveStatus(run)
  {
    if runs != [] {
      ActiveRunsExactly(runs[1..], run);
      ActiveExactly(runs[0]);
    }
  }

  lemma ActiveExactly(run: Json)
    ensures run.Obj? && Field(run, "status").Str? && Active(Field(run, "status").s) <==> HasActiveStatus(run)
  {
    hide Active;
    if run.Obj? && "status" in run.fields && run.fields["status"].Str? {
      KnownExactly(run.fields["status"].s);
    }
  }

  lemma {:induction false} FlattenExactly(snapshots: seq<Json>, run: Json)
    ensures run in Flatten(snapshots) <==> exists i :: 0 <= i < |snapshots| && run in Items(snapshots[i])
  {
    if snapshots != [] {
      FlattenExactly(snapshots[1..], run);
      if i :| 0 <= i < |snapshots| && run in Items(snapshots[i]) {
        assert i > 0 ==> snapshots[1..][i - 1] == snapshots[i];
      }
    }
  }

  // Every snapshot is well formed and below its limit.
  ghost predicate Trusted(x: Inputs)
    requires |x.older| == |QUERY_ORDER|
  {
    && RunsOk(x.recent, None) && |Items(x.recent)| < SNAPSHOT_LIMIT
    && forall i :: 0 <= i < |x.older| ==>
         RunsOk(x.older[i], Some(QUERY_ORDER[i])) && |Items(x.older[i])| < MAX_ACTIVE_RUNS
  }

  ghost predicate OlderOk(x: Inputs)
    requires |x.older| == |QUERY_ORDER|
  {
    forall i :: 0 <= i < |x.older| ==> RunsOk(x.older[i], Some(QUERY_ORDER[i]))
  }

  ghost predicate OlderTrusted(x: Inputs, i: nat, status: string)
    requires i < |x.older|
  {
    WellFormed(x.older[i], Some(status)) && |x.older[i].items| < 12
  }

  lemma TrustedExactly(x: Inputs)
    requires |x.older| == |QUERY_ORDER|
    ensures Trusted(x) <==>
            && WellFormed(x.recent, None) && |x.recent.items| < 1000
            && OlderTrusted(x, 0, "requested") && OlderTrusted(x, 1, "pending") && OlderTrusted(x, 2, "queued")
            && OlderTrusted(x, 3, "waiting") && OlderTrusted(x, 4, "in_progress")
  {
    hide RunsOk, WellFormed;
    RunsOkExactly(x.recent, None);
    RunsOkIsList(x.recent, None);
    WellFormedIsList(x.recent, None);
    forall i | 0 <= i < |x.older|
      ensures RunsOk(x.older[i], Some(QUERY_ORDER[i])) <==> WellFormed(x.older[i], Some(QUERY_ORDER[i]))
      ensures WellFormed(x.older[i], Some(QUERY_ORDER[i])) ==> x.older[i].List?
    {
      RunsOkExactly(x.older[i], Some(QUERY_ORDER[i]));
      WellFormedIsList(x.older[i], Some(QUERY_ORDER[i]));
    }
    assert QUERY_ORDER[0] == "requested" && QUERY_ORDER[1] == "pending" && QUERY_ORDER[2] == "queued";
    assert QUERY_ORDER[3] == "waiting" && QUERY_ORDER[4] == "in_progress";
  }

  lemma WellFormedIsList(runs: Json, expected: Option<string>)
    ensures WellFormed(runs, expected) ==> runs.List?
  {
  }

  lemma CountIsExact(x: Inputs)
    requires Counted(x).Success?
    ensures NumberCounted(x, |Counted(x).value|)
  {
    hide Counts, Counted;
    forall id
      ensures id in Counted(x).value <==> Counts(x, id)
    {
      CountedExactly(x, id);
    }
    assert CountedSet(x, Counted(x).value);
  }

  ghost predicate CountedSet(x: Inputs, ids: set<Json>) {
    forall id :: id in ids <==> Counts(x, id)
  }

  // The number of ids that count.
  ghost predicate NumberCounted(x: Inputs, n: nat) {
    exists ids :: CountedSet(x, ids) && |ids| == n
  }

  // What each blocker reports.  A malformed snapshot also counts as truncated.
  ghost predicate Blocks(x: Inputs, count: nat, b: Blocker)
    requires |x.older| == |QUERY_ORDER|
  {
    match b
    case CoreQuota => !x.quotaOk
    case GraphqlQuota => !x.graphqlQuotaOk
    case RunCapacity => count >= MAX_ACTIVE_RUNS
    case SnapshotMalformed => !RunsOk(x.recent, None) || !OlderOk(x)
    case SnapshotTruncated => !Trusted(x)
    case IdentityIncomplete => !x.identityComplete
  }

  // The older snapshots are looked at up to the first malformed one.
  ghost predicate OlderRefused(x: Inputs)
    requires |x.older| == |QUERY_ORDER|
  {
    exists i :: 0 <= i < |x.older| && Refused(x.older[i], Some(QUERY_ORDER[i]))
                && forall j :: 0 <= j < i ==> RunsOk(x.older[j], Some(QUERY_ORDER[j]))
  }

  // A mutation is allowed exactly when nothing blocks it, and every blocker is reported.
  // The gate crashes exactly on a refused snapshot or an id that cannot be merged, and never
  // on trusted snapshots.
  method Gate(x: Inputs) returns (r: Result<Verdict, Crash>)
    requires |x.older| == |QUERY_ORDER|
    ensures r.Failure? <==> Refused(x.recent, None) || OlderRefused(x) || Counted(x).Failure?
    ensures Trusted(x) ==> r.Success?
    ensures r.Success? ==> Counted(x).Success? && r.value.count == |Counted(x).value|
    ensures r.Success? ==>
              (r.value.allowed <==>
                x.quotaOk && x.graphqlQuotaOk && x.identityComplete && Trusted(x) && r.value.count < MAX_ACTIVE_RUNS)
    ensures r.Success? ==> NumberCounted(x, r.value.count)
    ensures r.Success? ==>
              (r.value.allowed <==>
                && x.quotaOk && x.graphqlQuotaOk && x.identityComplete && r.value.count < 12
                && WellFormed(x.recent, None) && |x.recent.items| < 1000
                && OlderTrusted(x, 0, "requested") && OlderTrusted(x, 1, "pending") && OlderTrusted(x, 2, "queued")
                && OlderTrusted(x, 3, "waiting") && OlderTrusted(x, 4, "in_progress"))
    ensures r.Success? ==> (r.value.allowed <==> r.value.blockers == [])
    ensures r.Success? ==> forall b :: b in r.value.blockers <==> Blocks(x, r.value.count, b)
  {
    hide RunsOk, Refused, OlderRefused, Report, ActiveRuns, RunIds;
    hide WellFormed, NumberCounted, OlderTrusted;
    TrustedExactly(x);
    if Trusted(x) {
      TrustedIsCounted(x);
    }
    if Counted(x).Success? {
      CountIsExact(x);
    }
    var recentValid :- WorkflowRunsValid(x.recent, None);
    RunsOkIsList(x.recent, None);
    var recentComplete := recentValid && |x.recent.items| < SNAPSHOT_LIMIT;
    var active :- ActiveRuns(Items(x.recent));
    var olderValid :- OlderValid(x);
    var olderComplete := olderValid;
    for i := 0 to |x.older|
      invariant olderComplete <==> olderValid && forall j :: 0 <= j < i ==> |Items(x.older[j])| < MAX_ACTIVE_RUNS
    {
      olderComplete := olderComplete && |Items(x.older[i])| < MAX_ACTIVE_RUNS;
    }
    var ids :- RunIds(active + Flatten(x.older));
    var capacityOk := |ids| < MAX_ACTIVE_RUNS;
    var allowed := x.quotaOk && x.graphqlQuotaOk && capacityOk && recentValid && recentComplete && olderValid
      && olderComplete && x.identityComplete;
    var blockers :=
      Report(!x.quotaOk, !x.graphqlQuotaOk, !capacityOk, !recentValid || !olderValid,
             !recentComplete || !olderComplete, !x.identityComplete);
    r := Success(Verdict(|ids|, allowed, blockers));
  }

  // The older snapshots are judged in order, up to the first that is not valid.
  method OlderValid(x: Inputs) returns (r: Result<bool, Crash>)
    requires |x.older| == |QUERY_ORDER|
    ensures r.Failure? <==> OlderRefused(x)
    ensures r.Success? ==> (r.value <==> OlderOk(x))
  {
    hide RunsOk, Refused;
    for i := 0 to |x.older|
      invariant forall j :: 0 <= j < i ==> RunsOk(x.older[j], Some(QUERY_ORDER[j]))
    {
      var valid :- WorkflowRunsValid(x.older[i], Some(QUERY_ORDER[i]));
      if !valid {
        FirstInvalid(x, i);
        return Success(false);
      }
    }
    AllValid(x);
    r := Success(true);
  }

  lemma FirstInvalid(x: Inputs, i: nat)
    requires |x.older| == |QUERY_ORDER| && i < |x.older|
    requires !RunsOk(x.older[i], Some(QUERY_ORDER[i])) && !Refused(x.older[i], Some(QUERY_ORDER[i]))
    requires forall j :: 0 <= j < i ==> RunsOk(x.older[j], Some(QUERY_ORDER[j]))
    ensures !OlderRefused(x) && !OlderOk(x)
  {
    hide RunsOk, Refused;
    forall j | 0 <= j < i
      ensures !Refused(x.older[j], Some(QUERY_ORDER[j]))
    {
      RunsOkIsNotRefused(x.older[j], Some(QUERY_ORDER[j]));
    }
  }

  lemma AllValid(x: Inputs)
    requires |x.older| == |QUERY_ORDER| && OlderOk(x)
    ensures !OlderRefused(x)
  {
    hide RunsOk, Refused;
    forall j | 0 <= j < |x.older|
      ensures !Refused(x.older[j], Some(QUERY_ORDER[j]))
    {
      RunsOkIsNotRefused(x.older[j], Some(QUERY_ORDER[j]));
    }
  }

  lemma {:induction false} ActiveRunsSucceed(runs: seq<Json>)
    requires forall j :: j in runs ==> RunOk(j, None)
    ensures ActiveRuns(runs).Success? && forall j :: j in ActiveRuns(runs).value ==> j in runs
    decreases |runs|
  {
    hide RunOk;
    if runs != [] {
      assert runs == [runs[0]] + runs[1..];
      OkIsHashable(runs[0], None);
      ActiveRunsSucceed(runs[1..]);
    }
  }

  lemma {:induction false} RunIdsSucceed(runs: seq<Json>)
    requires forall j :: j in runs ==> RunOk(j, None)
    ensures RunIds(runs).Success?
    decreases |runs|
  {
    hide RunOk;
    if runs != [] {
      assert runs[0] in runs;
      OkIsHashable(runs[0], None);
      assert forall j :: j in runs[1..] ==> j in runs;
      RunIdsSucceed(runs[1..]);
    }
  }

  lemma {:induction false} FlattenOk(snapshots: seq<Json>)
    requires forall i :: 0 <= i < |snapshots| ==> forall j :: j in Items(snapshots[i]) ==> RunOk(j, None)
    ensures forall j :: j in Flatten(snapshots) ==> RunOk(j, None)
    decreases |snapshots|
  {
    hide RunOk;
    if snapshots != [] {
      FlattenOk(snapshots[1..]);
    }
  }

  lemma ItemsOk(snapshot: Json, expected: Option<string>)
    requires RunsOk(snapshot, expected)
    ensures forall j :: j in Items(snapshot) ==> RunOk(j, None)
  {
    forall j | j in Items(snapshot)
      ensures RunOk(j, None)
    {
      OkIsHashable(j, expected);
    }
  }

  lemma TrustedIsCounted(x: Inputs)
    requires |x.older| == |QUERY_ORDER| && Trusted(x)
    ensures Counted(x).Success? && !Refused(x.recent, None) && !OlderRefused(x)
  {
    hide RunOk, RunsOk, Refused, ActiveRuns, RunIds, Flatten;
    RunsOkIsNotRefused(x.recent, None);
    ItemsOk(x.recent, None);
    ActiveRunsSucceed(Items(x.recent));
    forall i | 0 <= i < |x.older|
      ensures forall j :: j in Items(x.older[i]) ==> RunOk(j, None)
      ensures !Refused(x.older[i], Some(QUERY_ORDER[i]))
    {
      ItemsOk(x.older[i], Some(QUERY_ORDER[i]));
      RunsOkIsNotRefused(x.older[i], Some(QUERY_ORDER[i]));
    }
    FlattenOk(x.older);
    RunIdsSucceed(ActiveRuns(Items(x.recent)).value + Flatten(x.older));
  }

  lemma RunsOkIsList(runs: Json, expected: Option<string>)
    ensures RunsOk(runs, expected) ==> runs.List?
  {
  }

  // ---------------------------------------------------------------------
  // Statuses that move while they are queried.
  // ---------------------------------------------------------------------

  // The workflow runs over time: position 0 to 4 in the query order, 5 once completed.
  // `recent` and `older` split the runs at the creation time used by the queries.
  datatype RunId = RunId(number: int)

  datatype World = World(recent: set<RunId>, older: set<RunId>, position: map<RunId, seq<nat>>)

  function PositionAt(w: World, run: RunId, t: nat): nat {
    if run in w.position && t < |w.position[run]| then w.position[run][t] else 5
  }

  ghost predicate Listed(runs: seq<Json>, run: RunId) {
    exists j :: j in runs && Id(j) == Num(run.number)
  }

  ghost predicate ListedActive(runs: seq<Json>, run: RunId) {
    exists j :: j in runs && Id(j) == Num(run.number) && Field(j, "status").Str? && Active(Field(j, "status").s)
  }

  // The recent snapshot, taken at instant t: below its limit it lists every active run,
  // with an active status.
  ghost predicate AnswersRecent(w: World, snapshot: Json, t: nat) {
    |Items(snapshot)| < SNAPSHOT_LIMIT ==>
      forall run: RunId :: run in w.recent && PositionAt(w, run, t) < 5 ==> ListedActive(Items(snapshot), run)
  }

  // One status query, at instant t: below its limit it lists every older run that has the
  // status at that instant.
  ghost predicate AnswersStatus(w: World, snapshot: Json, i: nat, t: nat) {
    |Items(snapshot)| < MAX_ACTIVE_RUNS ==>
      forall run: RunId :: run in w.older && PositionAt(w, run, t) == i ==> Listed(Items(snapshot), run)
  }

  // The instants of the recent snapshot and of the five status queries, in order.
  predicate InOrder(times: seq<nat>) {
    |times| == 1 + |QUERY_ORDER| && forall i, j :: 0 <= i < j < |times| ==> times[i] <= times[j]
  }

  // A run is active throughout, and an older run only moves forward in the query order.
  ghost predicate ActiveThroughout(w: World, run: RunId, times: seq<nat>)
    requires InOrder(times)
  {
    || (run in w.recent && PositionAt(w, run, times[0]) < 5)
    || (run in w.older && MovesForward(w, run, times))
  }

  ghost predicate MovesForward(w: World, run: RunId, times: seq<nat>)
    requires InOrder(times)
  {
    && PositionAt(w, run, times[5]) < 5
    && forall i, j :: 1 <= i < j < |times| ==> PositionAt(w, run, times[i]) <= PositionAt(w, run, times[j])
  }

  // Some status query asks for the status that the run has at that moment: the position
  // starts at or ahead of the query and ends at or behind it, and the gap closes one at a
  // time.
  lemma {:induction false} QueriesCatchUp(w: World, run: RunId, times: seq<nat>, i: nat) returns (q: nat)
    requires InOrder(times) && MovesForward(w, run, times)
    requires i < 5 && PositionAt(w, run, times[i + 1]) >= i
    ensures i <= q < 5 && PositionAt(w, run, times[q + 1]) == q
    decreases 5 - i
  {
    if PositionAt(w, run, times[i + 1]) == i {
      q := i;
    } else {
      assert i < 4;
      q := QueriesCatchUp(w, run, times, i + 1);
    }
  }

  ghost predicate Answers(w: World, x: Inputs, times: seq<nat>)
    requires |x.older| == |QUERY_ORDER| && InOrder(times)
  {
    && AnswersRecent(w, x.recent, times[0])
    && forall i :: 0 <= i < |x.older| ==> AnswersStatus(w, x.older[i], i, times[i + 1])
  }

  lemma {:induction false} ActiveRunsKeep(runs: seq<Json>, j: Json)
    requires ActiveRuns(runs).Success? && j in runs && j.Obj?
    requires Field(j, "status").Str? && Active(Field(j, "status").s)
    ensures j in ActiveRuns(runs).value
  {
    if j != runs[0] {
      ActiveRunsKeep(runs[1..], j);
    }
  }

  lemma {:induction false} RunIdsHave(runs: seq<Json>, j: Json)
    requires RunIds(runs).Success? && j in runs
    ensures Id(j) in RunIds(runs).value
  {
    if j != runs[0] {
      RunIdsHave(runs[1..], j);
    }
  }

  lemma {:induction false} FlattenHas(snapshots: seq<Json>, i: nat, j: Json)
    requires i < |snapshots| && j in Items(snapshots[i])
    ensures j in Flatten(snapshots)
  {
    if i > 0 {
      FlattenHas(snapshots[1..], i - 1, j);
    }
  }

  // A run active throughout is among the counted ids.
  lemma ActiveRunIsCounted(w: World, x: Inputs, times: seq<nat>, run: RunId)
    requires |x.older| == |QUERY_ORDER| && InOrder(times) && Answers(w, x, times)
    requires Trusted(x) && Counted(x).Success? && ActiveThroughout(w, run, times)
    ensures Num(run.number) in Counted(x).value
  {
    hide RunsOk, Active;
    var active := ActiveRuns(Items(x.recent)).value;
    if run in w.recent && PositionAt(w, run, times[0]) < 5 {
      assert ListedActive(Items(x.recent), run);
      var j :| j in Items(x.recent) && Id(j) == Num(run.number) && Field(j, "status").Str?
        && Active(Field(j, "status").s);
      ActiveRunsKeep(Items(x.recent), j);
      RunIdsHave(active + Flatten(x.older), j);
    } else {
      var q := QueriesCatchUp(w, run, times, 0);
      assert AnswersStatus(w, x.older[q], q, times[q + 1]);
      assert Listed(Items(x.older[q]), run);
      var j :| j in Items(x.older[q]) && Id(j) == Num(run.number);
      FlattenHas(x.older, q, j);
      RunIdsHave(active + Flatten(x.older), j);
    }
  }

  lemma {:induction false} NumbersInject(runs: set<RunId>, ids: set<Json>)
    requires forall run: RunId :: run in runs ==> Num(run.number) in ids
    ensures |runs| <= |ids|
    decreases |runs|
  {
    if runs != {} {
      var run :| run in runs;
      NumbersInject(runs - {run}, ids - {Num(run.number)});
    }
  }

  // An allowed mutation means that fewer than twelve runs were active throughout, however
  // their statuses moved forward while they were being counted, and none was missed.
  lemma AllowedMeansCapacity(w: World, x: Inputs, times: seq<nat>, runs: set<RunId>)
    requires |x.older| == |QUERY_ORDER| && InOrder(times) && Answers(w, x, times)
    requires Trusted(x) && Counted(x).Success? && |Counted(x).value| < MAX_ACTIVE_RUNS
    requires forall run: RunId :: run in runs ==> ActiveThroughout(w, run, times)
    ensures |runs| < MAX_ACTIVE_RUNS
  {
    hide Trusted, Answers, Counted, ActiveThroughout;
    forall run: RunId | run in runs
      ensures Num(run.number) in Counted(x).value
    {
      ActiveRunIsCounted(w, x, times, run);
    }
    NumbersInject(runs, Counted(x).value);
  }

  ghost predicate ActiveAtAll(w: World, run: RunId, times: seq<nat>) {
    forall i :: 0 <= i < |times| ==> PositionAt(w, run, times[i]) < 5
  }

  // No query finds the run: query q asks, at the given instant, for the status at position q.
  ghost predicate Missed(w: World, run: RunId, instants: seq<nat>)
    requires |instants| == 5
  {
    forall q :: 0 <= q < 5 ==> PositionAt(w, run, instants[q]) != q
  }

  // Moving forward is needed: a run that falls back by one status between two queries is
  // active throughout and yet listed by none.
  lemma FallingBackIsMissed(run: RunId) returns (w: World, times: seq<nat>)
    ensures run in w.older && InOrder(times) && ActiveAtAll(w, run, times) && Missed(w, run, times[1..])
  {
    // Waiting until the query for queued runs, queued from the query for waiting runs on.
    var positions: seq<nat> := [3, 3, 3, 3, 2, 2];
    w := World({}, {run}, map[run := positions]);
    times := [0, 1, 2, 3, 4, 5];
  }

  // The order is needed: asked in the opposite order, a run that only moves forward can be
  // missed.
  lemma OppositeOrderMisses(run: RunId) returns (w: World, times: seq<nat>)
    ensures run in w.older && InOrder(times) && MovesForward(w, run, times)
    ensures Missed(w, run, [times[5], times[4], times[3], times[2], times[1]])
  {
    // Queued until the query for queued runs is next, then waiting.
    var positions: seq<nat> := [2, 2, 2, 3, 3, 3];
    w := World({}, {run}, map[run := positions]);
    times := [0, 1, 2, 3, 4, 5];
    assert forall t :: 0 <= t < 6 ==> PositionAt(w, run, t) == positions[t];
  }
}
