/**
  Publishing a captured bundle: pending, current, previous and the COMPLETE marker.

  A run may be killed, or fail, between any two filesystem steps.  The model gives every
  step its own point, so a statement about all points of all runs is a statement about
  every crash.
 */
module StashPublish {
  import opened Wrappers
  import opened ByteStrings
  import opened StashSnapshot

  // Digests are injective, so a recorded digest is represented by what was digested.
  datatype Content =
    | Torn
    | Database(bytes: Bytes)
    | Config(bytes: Bytes)
    | State(entries: seq<Entry>)
    | Metadata(completedAt: int)
    | Checksums(digests: map<FileName, Content>)

  // The files of a bundle directory, and any other name.
  datatype FileName = DatabaseFile | ConfigFile | StateFile | MetadataFile | ChecksumsFile | Foreign(name: string)

  type Folder = map<FileName, Content>

  const ROSTER: set<FileName> := {DatabaseFile, ConfigFile, StateFile, MetadataFile}

  datatype Store = Store(complete: bool, pending: Option<Folder>, current: Option<Folder>, previous: Option<Folder>)

  function Payloads(b: Bundle, completedAt: int): Folder {
    map[DatabaseFile := Database(b.database), ConfigFile := Config(b.config), StateFile := State(b.state),
        MetadataFile := Metadata(completedAt)]
  }

  function Generation(b: Bundle, completedAt: int): Folder {
    Payloads(b, completedAt)[ChecksumsFile := Checksums(Payloads(b, completedAt))]
  }

  // The four payloads and their checksums, of a bundle from a collect whose two inventories
  // and configurations agreed.
  ghost predicate Genuine(f: Folder, h: seq<Volume>) {
    exists b, completedAt, instant: nat :: f == Generation(b, completedAt) && Collected(b, h, instant)
  }

  ghost predicate ConsistentGeneration(f: Folder, h: seq<Volume>) {
    exists b, completedAt, instant: nat :: f == Generation(b, completedAt) && Consistent(b, h, instant)
  }

  // In a calm history a genuine generation is a consistent capture of one instant.
  lemma GenuineIsConsistent(f: Folder, h: seq<Volume>)
    requires Calm(h) && Genuine(f, h)
    ensures ConsistentGeneration(f, h)
  {
    hide Calm, Collected, Consistent;
    var b, completedAt, instant: nat :| f == Generation(b, completedAt) && Collected(b, h, instant);
    CollectedIsConsistent(b, h, instant);
  }

  // The roster and checksums that a restore asks of a bundle directory.
  predicate Accepted(f: Folder) {
    && ChecksumsFile in f && f[ChecksumsFile].Checksums?
    && f[ChecksumsFile].digests.Keys == ROSTER
    && forall name :: name in f[ChecksumsFile].digests ==> name in f && f[name] == f[ChecksumsFile].digests[name]
  }

  // ---------------------------------------------------------------------
  // The steps of one run.
  // ---------------------------------------------------------------------

  datatype Stage = Starting | Clearing | Filling | Dropping | Placing | Marking | Done

  datatype Point = Point(stage: Stage, store: Store)

  // The publish window: the older generations are being given up.
  predicate InWindow(stage: Stage) {
    stage.Dropping? || stage.Placing?
  }

  // One step of removing a directory tree.
  predicate RemovalStep(f: Option<Folder>, g: Option<Folder>) {
    && f.Some?
    && if f.value == map[] then g.None? else g.Some? && exists name :: name in f.value && g.value == f.value - {name}
  }

  // One file is created or written to, whatever is in it so far.
  predicate Written(f: Folder, g: Folder, name: FileName) {
    name in g && g == f[name := g[name]]
  }

  ghost predicate Step(h: seq<Volume>, a: Point, b: Point) {
    var s, t := a.store, b.store;
    match a.stage
    case Starting => b == Point(Clearing, s.(complete := false))
    case Clearing =>
      || (b.stage.Clearing? && RemovalStep(s.pending, t.pending) && t == s.(pending := t.pending))
      || (s.pending.None? && b == Point(Filling, s.(pending := Some(map[]))))
    case Filling =>
      || (b.stage.Filling? && s.pending.Some? && t == s.(pending := t.pending)
          && t.pending.Some? && exists name :: Written(s.pending.value, t.pending.value, name))
      || (b == Point(Dropping, s) && s.pending.Some? && Genuine(s.pending.value, h))
    case Dropping =>
      || (b.stage.Dropping? && RemovalStep(s.previous, t.previous) && t == s.(previous := t.previous))
      || (s.previous.None? && s.current.Some? && b == Point(Placing, s.(current := None, previous := s.current)))
      || (s.previous.None? && s.current.None? && b == Point(Marking, s.(pending := None, current := s.pending)))
    case Placing => b == Point(Marking, s.(pending := None, current := s.pending))
    case Marking => b == Point(Done, s.(complete := true))
    case Done => false
  }

  // The points of one run, from its start to where it finished or stopped.
  ghost predicate IsRun(h: seq<Volume>, run: seq<Point>) {
    && run != [] && run[0].stage.Starting?
    && forall i :: 0 < i < |run| ==> Step(h, run[i - 1], run[i])
  }

  // ---------------------------------------------------------------------
  // What each stage has done to the store the run began with.
  // ---------------------------------------------------------------------

  ghost predicate Effect(h: seq<Volume>, s: Store, p: Point) {
    var t := p.store;
    match p.stage
    case Starting => t == s
    case Clearing => !t.complete && t.current == s.current && t.previous == s.previous
    case Filling => !t.complete && t.current == s.current && t.previous == s.previous
    case Dropping => !t.complete && t.pending.Some? && Genuine(t.pending.value, h) && t.current == s.current
    case Placing =>
      && !t.complete && t.pending.Some? && Genuine(t.pending.value, h)
      && t.current.None? && s.current.Some? && t.previous == s.current
    case Marking =>
      !t.complete && t.pending.None? && t.current.Some? && Genuine(t.current.value, h) && t.previous == s.current
    case Done =>
      t.complete && t.pending.None? && t.current.Some? && Genuine(t.current.value, h) && t.previous == s.current
  }

  lemma {:induction false} RunEffect(h: seq<Volume>, run: seq<Point>, i: nat)
    requires IsRun(h, run) && i < |run|
    ensures Effect(h, run[0].store, run[i])
    decreases i
  {
    hide Genuine;
    if i > 0 {
      RunEffect(h, run, i - 1);
      assert Step(h, run[i - 1], run[i]);
    }
  }

  // ---------------------------------------------------------------------
  // Sequences of runs.
  // ---------------------------------------------------------------------

  function Final(run: seq<Point>): Point
    requires run != []
  {
    run[|run| - 1]
  }

  // Each run starts from the store in which its predecessor ended.
  ghost predicate AreRuns(h: seq<Volume>, runs: seq<seq<Point>>) {
    && (forall i :: 0 <= i < |runs| ==> IsRun(h, runs[i]))
    && (forall i :: 0 < i < |runs| ==> runs[i][0].store == Final(runs[i - 1]).store)
  }

  ghost predicate Truthful(h: seq<Volume>, s: Store) {
    s.complete ==> s.current.Some? && Genuine(s.current.value, h)
  }

  // The marker never lies, at any point of any run.
  lemma {:induction false} CompleteIsTruthful(h: seq<Volume>, runs: seq<seq<Point>>, i: nat, k: nat)
    requires AreRuns(h, runs) && i < |runs| && k < |runs[i]|
    requires Truthful(h, runs[0][0].store)
    ensures Truthful(h, runs[i][k].store)
    decreases i
  {
    hide Genuine, IsRun;
    assert IsRun(h, runs[i]);
    if i > 0 {
      RunNotEmpty(h, runs[i - 1]);
      CompleteIsTruthful(h, runs, i - 1, |runs[i - 1]| - 1);
    }
    RunEffect(h, runs[i], k);
  }

  lemma RunNotEmpty(h: seq<Volume>, run: seq<Point>)
    requires IsRun(h, run)
    ensures run != [] && run[0].stage.Starting?
  {
  }

  // A genuine directory holds what the restore asks for and nothing else.
  lemma GenuineIsAccepted(h: seq<Volume>, f: Folder)
    requires Genuine(f, h)
    ensures Accepted(f) && f.Keys == ROSTER + {ChecksumsFile}
  {
    hide Collected, Accepted, Generation;
    var b, completedAt, instant: nat :| f == Generation(b, completedAt) && Collected(b, h, instant);
    GenerationAccepted(b, completedAt);
  }

  lemma GenerationAccepted(b: Bundle, completedAt: int)
    ensures var f := Generation(b, completedAt);
            Accepted(f) && f[StateFile] == State(b.state) && f.Keys == ROSTER + {ChecksumsFile}
  {
  }

  // ---------------------------------------------------------------------
  // A generation survives.
  // ---------------------------------------------------------------------

  ghost predicate Whole(h: seq<Volume>, f: Option<Folder>) {
    f.Some? && Genuine(f.value, h)
  }

  ghost predicate Survives(h: seq<Volume>, s: Store) {
    Whole(h, s.current) || Whole(h, s.previous) || Whole(h, s.pending)
  }

  // Runs that stopped inside the publish window since the last one that got through it.
  function WindowStops(runs: seq<seq<Point>>): nat
    requires forall i :: 0 <= i < |runs| ==> runs[i] != []
  {
    if runs == [] then 0
    else
      var stage := Final(runs[|runs| - 1]).stage;
      if stage.Marking? || stage.Done? then 0
      else WindowStops(runs[..|runs| - 1]) + if InWindow(stage) then 1 else 0
  }

  // The state between two runs: with no stop the current generation is whole, with one
  // stop it is whole or has been moved to the previous place.
  ghost predicate Kept(h: seq<Volume>, s: Store, stops: nat) {
    && (stops == 0 ==> Whole(h, s.current))
    && (stops == 1 ==> Whole(h, s.current) || (s.current.None? && Whole(h, s.previous)))
  }

  lemma {:induction false} KeptBetweenRuns(h: seq<Volume>, runs: seq<seq<Point>>)
    requires runs != [] && AreRuns(h, runs) && Whole(h, runs[0][0].store.current)
    ensures forall i :: 0 <= i < |runs| ==> runs[i] != []
    ensures Kept(h, Final(runs[|runs| - 1]).store, WindowStops(runs))
  {
    hide Genuine;
    var n := |runs| - 1;
    RunEffect(h, runs[n], |runs[n]| - 1);
    if n > 0 {
      assert AreRuns(h, runs[..n]);
      KeptBetweenRuns(h, runs[..n]);
    }
  }

  // With at most one earlier stop inside the window since the last success, every point of
  // the next run still has a whole generation somewhere.
  lemma GenerationSurvives(h: seq<Volume>, runs: seq<seq<Point>>, k: nat)
    requires runs != [] && AreRuns(h, runs) && Whole(h, runs[0][0].store.current)
    requires forall i :: 0 <= i < |runs| ==> runs[i] != []
    requires WindowStops(runs[..|runs| - 1]) <= 1
    requires k < |runs[|runs| - 1]|
    ensures Survives(h, runs[|runs| - 1][k].store)
  {
    hide Genuine;
    var n := |runs| - 1;
    RunEffect(h, runs[n], k);
    if n > 0 {
      assert AreRuns(h, runs[..n]);
      KeptBetweenRuns(h, runs[..n]);
    }
  }

  // ---------------------------------------------------------------------
  // Two stops are too many: the bound above is tight.
  // ---------------------------------------------------------------------

  lemma StepAppends(h: seq<Volume>, run: seq<Point>, p: Point)
    requires IsRun(h, run) && Step(h, Final(run), p)
    ensures IsRun(h, run + [p]) && (run + [p])[0] == run[0] && Final(run + [p]) == p
  {
  }

  // A run that clears `pending` completely, however much it holds.
  lemma ClearedRun(h: seq<Volume>, s: Store) returns (run: seq<Point>)
    ensures IsRun(h, run) && run != [] && run[0] == Point(Starting, s)
    ensures Final(run) == Point(Clearing, s.(complete := false, pending := None))
  {
    hide Genuine, IsRun;
    run := StartedRun(h, s);
    var pending := s.pending;
    while pending.Some?
      invariant IsRun(h, run) && run != [] && run[0] == Point(Starting, s)
      invariant Final(run) == Point(Clearing, s.(complete := false, pending := pending))
      decreases pending.Some?, if pending.Some? then |pending.value| else 0
    {
      var next := None;
      if pending.value != map[] {
        var name :| name in pending.value;
        next := Some(pending.value - {name});
      }
      var p := Point(Clearing, s.(complete := false, pending := next));
      StepAppends(h, run, p);
      run, pending := run + [p], next;
    }
  }

  lemma StartedRun(h: seq<Volume>, s: Store) returns (run: seq<Point>)
    ensures IsRun(h, run) && run != [] && run[0] == Point(Starting, s)
    ensures Final(run) == Point(Clearing, s.(complete := false))
  {
    run := [Point(Starting, s), Point(Clearing, s.(complete := false))];
  }

  // A run that has filled `pending` with `g` and emptied the previous place.
  lemma DroppedRun(h: seq<Volume>, s: Store, g: Folder) returns (run: seq<Point>)
    requires Genuine(g, h)
    ensures IsRun(h, run) && run != [] && run[0] == Point(Starting, s)
    ensures Final(run) == Point(Dropping, Store(false, Some(g), s.current, None))
  {
    hide Genuine, IsRun;
    run := ClearedRun(h, s);
    var f: Folder := map[];
    var p := Point(Filling, Store(false, Some(f), s.current, s.previous));
    StepAppends(h, run, p);
    run := run + [p];
    while f != g
      invariant IsRun(h, run) && run != [] && run[0] == Point(Starting, s)
      invariant Final(run) == Point(Filling, Store(false, Some(f), s.current, s.previous))
      invariant f.Keys <= g.Keys && forall name :: name in f ==> f[name] == g[name]
      decreases g.Keys - f.Keys
    {
      var name :| name in g && name !in f;
      assert Written(f, f[name := g[name]], name);
      p := Point(Filling, Store(false, Some(f[name := g[name]]), s.current, s.previous));
      StepAppends(h, run, p);
      run, f := run + [p], f[name := g[name]];
    }
    p := Point(Dropping, Store(false, Some(g), s.current, s.previous));
    StepAppends(h, run, p);
    run := run + [p];
    var previous := s.previous;
    while previous.Some?
      invariant IsRun(h, run) && run != [] && run[0] == Point(Starting, s)
      invariant Final(run) == Point(Dropping, Store(false, Some(g), s.current, previous))
      decreases previous.Some?, if previous.Some? then |previous.value| else 0
    {
      var next := None;
      if previous.value != map[] {
        var name :| name in previous.value;
        next := Some(previous.value - {name});
      }
      p := Point(Dropping, Store(false, Some(g), s.current, next));
      StepAppends(h, run, p);
      run, previous := run + [p], next;
    }
  }

  // From any store, two runs stopped inside the window and the start of a third leave
  // no generation at all.
  lemma TwoStopsCanLoseEverything(h: seq<Volume>, s: Store, g: Folder, g': Folder) returns (runs: seq<seq<Point>>)
    requires Whole(h, s.current) && Genuine(g, h) && Genuine(g', h)
    ensures |runs| == 3 && runs[0] != [] && runs[1] != [] && runs[2] != [] && AreRuns(h, runs)
    ensures runs[0][0] == Point(Starting, s)
    ensures InWindow(Final(runs[0]).stage) && InWindow(Final(runs[1]).stage)
    ensures !Survives(h, Final(runs[2]).store)
  {
    hide Genuine, IsRun;
    var first := DroppedRun(h, s, g);
    var p := Point(Placing, Store(false, Some(g), None, s.current));
    StepAppends(h, first, p);
    first := first + [p];
    var second := DroppedRun(h, p.store, g');
    var third := ClearedRun(h, Final(second).store);
    runs := [first, second, third];
  }

  // ---------------------------------------------------------------------
  // The program.
  // ---------------------------------------------------------------------

  lemma GenuineExtends(h: seq<Volume>, h': seq<Volume>, f: Folder)
    requires Genuine(f, h) && h <= h'
    ensures Genuine(f, h')
  {
    hide Collected;
    var b, completedAt, instant: nat :| f == Generation(b, completedAt) && Collected(b, h, instant);
    CollectedExtends(b, h, h', instant);
  }

  lemma RunExtends(h: seq<Volume>, h': seq<Volume>, run: seq<Point>)
    requires IsRun(h, run) && h <= h'
    ensures IsRun(h', run)
  {
    hide Genuine;
    forall i | 0 < i < |run|
      ensures Step(h', run[i - 1], run[i])
    {
      assert Step(h, run[i - 1], run[i]);
      var s := run[i - 1].store;
      if s.pending.Some? && Genuine(s.pending.value, h) {
        GenuineExtends(h, h', s.pending.value);
      }
    }
  }

  lemma RunsExtend(h: seq<Volume>, h': seq<Volume>, runs: seq<seq<Point>>)
    requires AreRuns(h, runs) && h <= h'
    ensures AreRuns(h', runs)
  {
    hide IsRun;
    forall i | 0 <= i < |runs|
      ensures IsRun(h', runs[i])
    {
      RunExtends(h, h', runs[i]);
      RunNotEmpty(h, runs[i]);
    }
  }

  lemma RunsAppend(h: seq<Volume>, runs: seq<seq<Point>>, run: seq<Point>, start: Store)
    requires AreRuns(h, runs) && IsRun(h, run) && run != [] && run[0].store == start
    requires runs != [] ==> runs[|runs| - 1] != [] && Final(runs[|runs| - 1]).store == start
    ensures AreRuns(h, runs + [run])
  {
    hide IsRun;
    var more := runs + [run];
    forall i | 0 <= i < |more|
      ensures IsRun(h, more[i])
    {
    }
    assert forall i :: 0 <= i < |runs| ==> more[i] == runs[i];
  }

  // What a sequence of runs, finished with history h', leaves in the store.
  lemma RunsOutcome(h: seq<Volume>, h': seq<Volume>, runs: seq<seq<Point>>, s: Store, t: Store)
    requires AreRuns(h', runs) && Truthful(h, s) && h <= h'
    requires if runs == [] then t == s
             else runs[0] != [] && runs[|runs| - 1] != [] && runs[0][0].store == s && Final(runs[|runs| - 1]).store == t
    ensures Truthful(h', t)
    ensures forall i :: 0 <= i < |runs| ==> runs[i] != []
    ensures runs != [] && Whole(h', s.current) && WindowStops(runs[..|runs| - 1]) <= 1 ==> Survives(h', t)
  {
    hide IsRun, Genuine;
    if s.complete {
      GenuineExtends(h, h', s.current.value);
    }
    forall i | 0 <= i < |runs|
      ensures runs[i] != []
    {
      assert IsRun(h', runs[i]);
      RunNotEmpty(h', runs[i]);
    }
    if runs != [] {
      var n := |runs| - 1;
      CompleteIsTruthful(h', runs, n, |runs[n]| - 1);
      if Whole(h', s.current) && WindowStops(runs[..n]) <= 1 {
        GenerationSurvives(h', runs, |runs[n]| - 1);
      }
    }
  }

  // Removing a directory takes a step for each file and one for itself.
  function RemovalSteps(f: Option<Folder>): nat {
    if f.Some? then |f.value| + 1 else 0
  }

  function RunSteps(s: Store): nat {
    RemovalSteps(s.pending) + RemovalSteps(s.previous) + 22
  }

  // With that many steps left before it stops, a run gets through.
  predicate Goes(before: nat, needed: nat, alive: bool, after: nat) {
    before >= needed ==> alive && after + needed >= before
  }

  // What a run meets: a held lock, a missing precondition, a deadline, a stop.
  datatype Attempt = Attempt(locked: bool, ready: bool, budget: nat, completedAt: int, steps: nat)

  // What a refused run has done: nothing at all when another run holds the lock, and nothing
  // to the current and the previous generation when a precondition is missing.
  predicate Refused(a: Attempt, run: seq<Point>)
    requires run != []
  {
    var s, t := run[0].store, Final(run).store;
    && (a.locked ==> |run| == 1 && t == s)
    && (!a.ready ==> !t.complete || t == s)
    && (!a.ready ==> t.current == s.current && t.previous == s.previous)
    && (!a.ready ==> Final(run).stage in {Starting, Clearing, Filling})
  }

  // The output directory.  `steps` filesystem steps succeed before the run is killed or fails.
  class Output {
    var store: Store
    var steps: nat
    ghost var run: seq<Point>

    constructor ()
      ensures store == Store(false, None, None, None)
    {
      store := Store(false, None, None, None);
      steps := 0;
      run := [];
    }

    ghost predicate Running(h: seq<Volume>)
      reads this
    {
      IsRun(h, run) && run != [] && Final(run).store == store
    }

    // One filesystem step.
    method Advance(ghost h: seq<Volume>, ghost stage: Stage, next: Store) returns (alive: bool)
      requires Running(h) && Step(h, Final(run), Point(stage, next))
      modifies this
      ensures Running(h) && run[0] == old(run[0])
      ensures if alive then Final(run) == Point(stage, next) else run == old(run)
      ensures alive == (old(steps) > 0) && steps == if alive then old(steps) - 1 else 0
    {
      if steps == 0 {
        return false;
      }
      StepAppends(h, run, Point(stage, next));
      steps, store, run := steps - 1, next, run + [Point(stage, next)];
      alive := true;
    }

    method ClearPending(ghost h: seq<Volume>) returns (alive: bool)
      requires Running(h) && Final(run).stage.Clearing?
      modifies this
      ensures Running(h) && run[0] == old(run[0])
      ensures Final(run) == Point(Clearing, old(store).(pending := store.pending))
      ensures alive ==> Final(run) == Point(Clearing, old(store).(pending := None))
      ensures Goes(old(steps), RemovalSteps(old(store).pending), alive, steps)
    {
      hide IsRun;
      alive := true;
      while store.pending.Some?
        invariant Running(h) && run[0] == old(run[0])
        invariant Final(run) == Point(Clearing, old(store).(pending := store.pending)) && alive
        invariant steps + RemovalSteps(old(store).pending) >= old(steps) + RemovalSteps(store.pending)
        decreases store.pending.Some?, if store.pending.Some? then |store.pending.value| else 0
      {
        if store.pending.value == map[] {
          alive := Advance(h, Clearing, store.(pending := None));
        } else {
          var name :| name in store.pending.value;
          alive := Advance(h, Clearing, store.(pending := Some(store.pending.value - {name})));
        }
        if !alive {
          return;
        }
      }
    }

    method DropPrevious(ghost h: seq<Volume>) returns (alive: bool)
      requires Running(h) && Final(run).stage.Dropping?
      modifies this
      ensures Running(h) && run[0] == old(run[0])
      ensures Final(run) == Point(Dropping, old(store).(previous := store.previous))
      ensures alive ==> Final(run) == Point(Dropping, old(store).(previous := None))
      ensures Goes(old(steps), RemovalSteps(old(store).previous), alive, steps)
    {
      hide IsRun, Genuine;
      alive := true;
      while store.previous.Some?
        invariant Running(h) && run[0] == old(run[0])
        invariant Final(run) == Point(Dropping, old(store).(previous := store.previous)) && alive
        invariant steps + RemovalSteps(old(store).previous) >= old(steps) + RemovalSteps(store.previous)
        decreases store.previous.Some?, if store.previous.Some? then |store.previous.value| else 0
      {
        if store.previous.value == map[] {
          alive := Advance(h, Dropping, store.(previous := None));
        } else {
          var name :| name in store.previous.value;
          alive := Advance(h, Dropping, store.(previous := Some(store.previous.value - {name})));
        }
        if !alive {
          return;
        }
      }
    }

    // A file is created or rewritten; a stop may leave it torn.
    method Put(ghost h: seq<Volume>, name: FileName, content: Content) returns (alive: bool)
      requires Running(h) && Final(run).stage.Filling? && store.pending.Some?
      modifies this
      ensures Running(h) && run[0] == old(run[0])
      ensures Final(run) == Point(Filling, old(store).(pending := store.pending))
      ensures alive ==>
                Final(run) == Point(Filling, old(store).(pending := Some(old(store).pending.value[name := content])))
      ensures Goes(old(steps), 2, alive, steps)
    {
      hide IsRun, Genuine;
      var f := store.pending.value;
      assert Written(f, f[name := Torn], name);
      alive := Advance(h, Filling, store.(pending := Some(f[name := Torn])));
      if alive {
        var t := f[name := Torn];
        assert t[name := content] == f[name := content];
        assert Written(t, t[name := content], name);
        alive := Advance(h, Filling, store.(pending := Some(t[name := content])));
      }
    }

    // One capture run.  `locked` says that another run holds the lock, `ready` that there
    // is headroom and a configuration; either may stop the run before it collects.
    method Capture(live: Live, locked: bool, ready: bool, budget: nat, completedAt: int, steps: nat)
      returns (done: bool)
      requires live.Valid()
      modifies this, live
      ensures live.Valid() && old(live.history) <= live.history
      ensures Running(live.history) && run[0] == Point(Starting, old(store))
      ensures locked ==> !done && store == old(store) && run == [Point(Starting, store)]
      ensures !ready ==> !done && Final(run).stage in {Starting, Clearing, Filling}
      ensures !ready ==> store.current == old(store.current) && store.previous == old(store.previous)
      ensures done <==> Final(run).stage.Done?
      ensures !done ==> store == old(store) || !store.complete
      ensures done ==> store.complete && Whole(live.history, store.current) && store.previous == old(store.current)
      ensures !locked && ready && old(live.Still()) && budget >= live.Reads() && steps >= RunSteps(old(store)) ==> done
    {
      hide IsRun, Genuine, Collected;
      Begin(live.history);
      this.steps, done := steps, false;
      if locked {
        return;
      }
      var alive := Advance(live.history, Clearing, store.(complete := false));
      if !alive {
        return;
      }
      alive := ClearPending(live.history);
      if !alive {
        return;
      }
      alive := Advance(live.history, Filling, store.(pending := Some(map[])));
      if !alive || !ready {
        return;
      }
      // The three copies are under way while the trees are inventoried and archived.
      alive := CreateCopies(live.history);
      if !alive {
        return;
      }
      ghost var before := live.history;
      var bundle, instant := Collect(live, budget);
      RunExtends(before, live.history, run);
      if bundle.None? {
        return;
      }
      alive := Fill(live.history, bundle.value, completedAt);
      if !alive {
        return;
      }
      GenerationIsGenuine(live.history, bundle.value, completedAt, instant);
      done := Publish(live.history);
      RunEffect(live.history, run, |run| - 1);
    }

    /**
      Capture runs one after another on one output, each stopped anywhere or refused.  The
      marker never lies, and a whole generation survives as long as at most one run before the
      last stopped in the window since the last success.
     */
    method CaptureAll(live: Live, attempts: seq<Attempt>) returns (ghost runs: seq<seq<Point>>)
      requires live.Valid() && Truthful(live.history, store)
      modifies this, live
      ensures live.Valid() && old(live.history) <= live.history
      ensures |runs| == |attempts| && AreRuns(live.history, runs)
      ensures runs != [] ==> runs[0][0].store == old(store) && Final(runs[|runs| - 1]).store == store
      ensures Truthful(live.history, store)
      ensures forall i :: 0 <= i < |runs| ==> runs[i] != [] && Refused(attempts[i], runs[i])
      ensures runs != [] && Whole(live.history, old(store).current) && WindowStops(runs[..|runs| - 1]) <= 1 ==>
                Survives(live.history, store)
    {
      hide IsRun, Genuine, Truthful, Whole, Survives;
      runs := [];
      for i := 0 to |attempts|
        invariant live.Valid() && old(live.history) <= live.history
        invariant |runs| == i && AreRuns(live.history, runs)
        invariant forall j :: 0 <= j < i ==> runs[j] != [] && Refused(attempts[j], runs[j])
        invariant i == 0 ==> store == old(store)
        invariant i > 0 ==> runs[0] != [] && runs[i - 1] != []
        invariant i > 0 ==> runs[0][0].store == old(store) && Final(runs[i - 1]).store == store
      {
        var a := attempts[i];
        ghost var before, start := live.history, store;
        var _ := Capture(live, a.locked, a.ready, a.budget, a.completedAt, a.steps);
        RunsExtend(before, live.history, runs);
        RunsAppend(live.history, runs, run, start);
        runs := runs + [run];
      }
      RunsOutcome(old(live.history), live.history, runs, old(store), store);
    }

    ghost method Begin(h: seq<Volume>)
      modifies this`run
      ensures Running(h) && run == [Point(Starting, store)]
    {
      run := [Point(Starting, store)];
    }

    method CreateCopies(ghost h: seq<Volume>) returns (alive: bool)
      requires Running(h) && Final(run).stage.Filling? && store.pending == Some(map[])
      modifies this
      ensures Running(h) && run[0] == old(run[0])
      ensures Final(run) == Point(Filling, old(store).(pending := store.pending))
      ensures alive ==>
                Final(run) == Point(Filling,
                                    old(store).(pending := Some(map[DatabaseFile := Torn, ConfigFile := Torn,
                                                                    StateFile := Torn])))
      ensures Goes(old(steps), 6, alive, steps)
    {
      hide IsRun, Genuine;
      alive := Put(h, DatabaseFile, Torn);
      if alive {
        alive := Put(h, ConfigFile, Torn);
      }
      if alive {
        alive := Put(h, StateFile, Torn);
      }
    }

    method Fill(ghost h: seq<Volume>, b: Bundle, completedAt: int) returns (alive: bool)
      requires Running(h) && Final(run).stage.Filling?
      requires store.pending == Some(map[DatabaseFile := Torn, ConfigFile := Torn, StateFile := Torn])
      modifies this
      ensures Running(h) && run[0] == old(run[0])
      ensures Final(run) == Point(Filling, old(store).(pending := store.pending))
      ensures alive ==> Final(run) == Point(Filling, old(store).(pending := Some(Generation(b, completedAt))))
      ensures Goes(old(steps), 10, alive, steps)
    {
      hide IsRun, Genuine;
      alive := Put(h, DatabaseFile, Database(b.database));
      if !alive {
        return;
      }
      alive := Put(h, ConfigFile, Config(b.config));
      if !alive {
        return;
      }
      alive := Put(h, StateFile, State(b.state));
      if !alive {
        return;
      }
      alive := Put(h, MetadataFile, Metadata(completedAt));
      if !alive {
        return;
      }
      var f := store.pending.value;
      assert f == Payloads(b, completedAt);
      var digests: map<FileName, Content>, names := map[], f.Keys;
      while names != {}
        invariant names <= f.Keys && digests.Keys == f.Keys - names
        invariant forall name :: name in digests ==> digests[name] == f[name]
      {
        var name :| name in names;
        digests, names := digests[name := f[name]], names - {name};
      }
      assert digests == f;
      alive := Put(h, ChecksumsFile, Checksums(digests));
    }

    method Publish(ghost h: seq<Volume>) returns (alive: bool)
      requires Running(h) && Final(run).stage.Filling? && store.pending.Some? && Genuine(store.pending.value, h)
      modifies this
      ensures Running(h) && run[0] == old(run[0])
      ensures !alive ==> store.complete == old(store).complete
      ensures alive <==> Final(run).stage.Done?
      ensures Goes(old(steps), RemovalSteps(old(store).previous) + 4, alive, steps)
    {
      hide IsRun, Genuine;
      alive := Advance(h, Dropping, store);
      if !alive {
        return;
      }
      alive := DropPrevious(h);
      if !alive {
        return;
      }
      if store.current.Some? {
        alive := Advance(h, Placing, store.(current := None, previous := store.current));
        if !alive {
          return;
        }
      }
      alive := Advance(h, Marking, store.(pending := None, current := store.pending));
      if !alive {
        return;
      }
      alive := Advance(h, Done, store.(complete := true));
    }
  }

  lemma GenerationIsGenuine(h: seq<Volume>, b: Bundle, completedAt: int, instant: nat)
    requires Collected(b, h, instant)
    ensures Genuine(Generation(b, completedAt), h)
  {
    hide Collected;
  }
}
