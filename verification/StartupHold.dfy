/**
  A bounded hold before a container's native start.  The holder publishes evidence bound to
  its own identity and to two clocks; others check the evidence before relying on the hold.
  Signals, kills, restarts, reboots and wall-clock steps may come between any two statements.
 */
module StartupHold {
  import opened Wrappers

  const MAX_HOLD: real := 1800.0

  // The absolute expiry every start is given, and how much a sleep may overrun.
  datatype Config = Config(deadline: int, slack: real)

  // What PID 1 is: one value per process and per program it runs.
  datatype Program = Holder | Init

  datatype Identity = Identity(incarnation: nat, program: Program)

  datatype Marker = Marker(holder: Identity, nonce: nat, deadline: int, end: real)

  // Where the holder stands.
  datatype Phase =
    | Down
    | Launched
    | Cleared
    | Timed(duration: real)
    | Bound(end: real)
    | Published(end: real)
    | Holding(end: real)
    | Napping(end: real)
    | Leaving
    | Stopping
    | Finished
    | Native

  // `executed` says that this incarnation has executed the native program.
  datatype World = World(wall: real, mono: real, incarnation: nat, phase: Phase, executed: bool, marker: Option<Marker>)

  predicate Sensible(c: Config) {
    c.slack >= 0.0
  }

  function Min(a: real, b: real): real {
    if a < b then a else b
  }

  // ---------------------------------------------------------------------
  // The program, one statement at a time.
  // ---------------------------------------------------------------------

  predicate Open(c: Config, w: World, end: real) {
    w.wall < c.deadline as real && w.mono < end
  }

  // The next statement of the holder; `nonce` is the random part of the evidence.
  function Proceed(c: Config, nonce: nat, w: World): World {
    match w.phase
    case Launched => w.(phase := Cleared, marker := None)
    case Cleared =>
      var duration := c.deadline as real - w.wall;
      if 0.0 < duration <= MAX_HOLD then w.(phase := Timed(duration)) else w.(phase := Native, executed := true)
    case Timed(duration) => w.(phase := Bound(w.mono + duration))
    case Bound(end) =>
      var holder := Identity(w.incarnation, Holder);
      w.(phase := Published(end), marker := Some(Marker(holder, nonce, c.deadline, end)))
    case Published(end) => w.(phase := Holding(end))
    case Holding(end) => if Open(c, w, end) then w.(phase := Napping(end)) else w.(phase := Leaving)
    case Napping(_) => w
    case Leaving => w.(phase := Finished, marker := None)
    case Stopping => w.(phase := Down, marker := None)
    case Finished => w.(phase := Native, executed := true)
    case Native => w
    case Down => w
  }

  function Nap(w: World): real
    requires w.phase.Napping?
  {
    var left := w.phase.end - w.mono;
    Min(0.25, if left > 0.0 then left else 0.0)
  }

  datatype Event =
    | Proceeds(nonce: nat)
    | Sleeps(time: real)
    | Elapses(time: real)
    | SetsWall(wall: real)
    | Signalled
    | Killed
    | Reboots(mono: real)
    | Restarts(kept: bool)

  // Handlers are in place from the loop until the native program is executed.
  predicate Handles(p: Phase) {
    p.Holding? || p.Napping? || p.Leaving? || p.Stopping? || p.Finished?
  }

  predicate Next(c: Config, w: World, e: Event, next: World) {
    match e
    case Proceeds(nonce) => next == Proceed(c, nonce, w)
    case Sleeps(time) =>
      && w.phase.Napping? && Nap(w) <= time <= Nap(w) + c.slack
      && next == w.(phase := Holding(w.phase.end), mono := w.mono + time, wall := w.wall + time)
    case Elapses(time) =>
      && !w.phase.Holding? && !w.phase.Napping? && time >= 0.0
           && next == w.(mono := w.mono + time, wall := w.wall + time)
    case SetsWall(wall) => next == w.(wall := wall)
    case Signalled => next == if Handles(w.phase) then w.(phase := Stopping) else w
    case Killed => next == w.(phase := Down)
    case Reboots(mono) => w.phase.Down? && next == w.(mono := mono)
    case Restarts(kept) =>
      && w.phase.Down?
      && next == w.(phase := Launched, incarnation := w.incarnation + 1, executed := false,
                    marker := if kept then w.marker else None)
  }

  ghost predicate Follows(c: Config, ws: seq<World>, es: seq<Event>) {
    && |ws| == |es| + 1
    && forall i :: 0 <= i < |es| ==> Next(c, ws[i], es[i], ws[i + 1])
  }

  // ---------------------------------------------------------------------
  // The evidence.
  // ---------------------------------------------------------------------

  function Current(w: World): Identity {
    Identity(w.incarnation, if w.phase.Native? then Init else Holder)
  }

  function Remaining(w: World, m: Marker): real {
    Min(m.deadline as real - w.wall, m.end - w.mono)
  }

  // The marker, if it is this holder's and has the time asked for.
  function ReadMarker(w: World, minimum: int): Option<Marker> {
    if !(0 < minimum <= 1800) || w.marker.None? || w.marker.value.holder != Current(w)
       || !(minimum as real <= Remaining(w, w.marker.value) <= MAX_HOLD)
    then None else w.marker
  }

  // A check reads the file, the identity and the two clocks one after another, at instants
  // `file` to `mono`.  It runs inside the container, so PID 1 is there all the while.
  predicate AcceptsOver(ws: seq<World>, file: nat, id: nat, wall: nat, mono: nat, minimum: int, expected: Marker)
    requires file <= id <= wall <= mono < |ws|
  {
    && (forall k :: file <= k <= mono ==> !ws[k].phase.Down?)
    && 0 < minimum <= 1800
    && ws[file].marker == Some(expected) && expected.holder == Current(ws[id])
    && minimum as real <= Min(expected.deadline as real - ws[wall].wall, expected.end - ws[mono].mono) <= MAX_HOLD
  }

  // A check whose reads fall on one instant.
  predicate Accepts(w: World, minimum: int, expected: Marker) {
    !w.phase.Down? && ReadMarker(w, minimum) == Some(expected)
  }

  // ---------------------------------------------------------------------
  // What every run keeps.
  // ---------------------------------------------------------------------

  predicate Initial(w: World) {
    && w.phase.Down?
    && (w.marker.Some? ==> w.marker.value.holder.incarnation < w.incarnation)
  }

  // Evidence of the present incarnation.
  predicate Own(w: World) {
    w.marker.Some? && w.marker.value.holder.incarnation == w.incarnation
  }

  predicate Inv(c: Config, w: World) {
    && (w.marker.Some? ==> w.marker.value.holder.incarnation <= w.incarnation)
    && (w.executed ==> w.phase.Native? || w.phase.Down?)
    && (w.phase.Native? ==> w.executed)
    && (Own(w) ==> !w.executed && w.marker.value.deadline == c.deadline && w.marker.value.holder.program == Holder)
    && match w.phase
       case Down => true
       case Launched => !Own(w)
       case Cleared => w.marker.None?
       case Timed(duration) => w.marker.None? && 0.0 < duration <= MAX_HOLD
       case Bound(end) => w.marker.None? && end <= w.mono + MAX_HOLD
       case Published(end) => Own(w) && w.marker.value.end == end && end <= w.mono + MAX_HOLD
       case Holding(end) => Own(w) && w.marker.value.end == end && end <= w.mono + MAX_HOLD
       case Napping(end) => Own(w) && w.marker.value.end == end && end <= w.mono + MAX_HOLD
       case Leaving => Own(w) && w.marker.value.end <= w.mono + MAX_HOLD
       case Stopping => w.marker.Some? ==> Own(w) && w.marker.value.end <= w.mono + MAX_HOLD
       case Finished => w.marker.None?
       case Native => w.marker.None?
  }

  lemma LaunchedIsNotExecuted(c: Config, w: World)
    requires Inv(c, w) && w.phase.Launched?
    ensures !w.executed
  {
  }

  lemma StepKeepsInv(c: Config, w: World, e: Event, next: World)
    requires Sensible(c) && Inv(c, w) && Next(c, w, e, next)
    ensures Inv(c, next)
  {
  }

  lemma {:induction false} RunKeepsInv(c: Config, ws: seq<World>, es: seq<Event>, i: nat)
    requires Sensible(c) && Follows(c, ws, es) && Initial(ws[0]) && i < |ws|
    ensures Inv(c, ws[i])
    decreases i
  {
    if i > 0 {
      RunKeepsInv(c, ws, es, i - 1);
      StepKeepsInv(c, ws[i - 1], es[i - 1], ws[i]);
    }
  }

  // ---------------------------------------------------------------------
  // What an accepted check tells.
  // ---------------------------------------------------------------------

  // While PID 1 stays, it is one process and its monotonic clock only advances.
  lemma {:induction false} OneProcess(c: Config, ws: seq<World>, es: seq<Event>, i: nat, j: nat)
    requires Sensible(c) && Follows(c, ws, es) && i <= j < |ws|
    requires forall k :: i <= k <= j ==> !ws[k].phase.Down?
    ensures ws[i].incarnation == ws[j].incarnation && ws[i].mono <= ws[j].mono
    decreases j
  {
    if i < j {
      OneProcess(c, ws, es, i, j - 1);
      assert Next(c, ws[j - 1], es[j - 1], ws[j]);
    }
  }

  /**
    In every run, a check accepts exactly when the file holds evidence of the process that is
    PID 1 when its identity is read, which has not executed the native program by then, and
    each clock, when it is read, has the time asked for.  The upper bound on the remaining time
    never refuses anything more.
   */
  lemma AcceptedExactly(c: Config, ws: seq<World>, es: seq<Event>, file: nat, id: nat, wall: nat, mono: nat,
                        minimum: int, m: Marker)
    requires Sensible(c) && Follows(c, ws, es) && Initial(ws[0]) && file <= id <= wall <= mono < |ws|
    ensures AcceptsOver(ws, file, id, wall, mono, minimum, m) <==>
            && (forall k :: file <= k <= mono ==> !ws[k].phase.Down?) && 0 < minimum <= 1800
            && ws[file].marker == Some(m) && m.holder.incarnation == ws[id].incarnation && !ws[id].executed
            && ws[wall].wall + minimum as real <= c.deadline as real && ws[mono].mono + minimum as real <= m.end
    ensures AcceptsOver(ws, file, id, wall, mono, minimum, m) ==> Held(ws[file], m)
  {
    hide Next, Follows;
    RunKeepsInv(c, ws, es, file);
    RunKeepsInv(c, ws, es, id);
    if forall k :: file <= k <= mono ==> !ws[k].phase.Down? {
      OneProcess(c, ws, es, file, id);
      OneProcess(c, ws, es, file, mono);
    }
  }

  /**
    Where the wall clock is never set back, a check that accepts could as well have made all
    its reads when it read the file; and when it read the identity, both clocks had the time.
    So what is said below of one instant holds of every check.
   */
  lemma AcceptedAtOnce(c: Config, ws: seq<World>, es: seq<Event>, file: nat, id: nat, wall: nat, mono: nat,
                       minimum: int, m: Marker)
    requires Sensible(c) && Follows(c, ws, es) && Initial(ws[0]) && AlwaysForward(ws, es)
    requires file <= id <= wall <= mono < |ws|
    requires AcceptsOver(ws, file, id, wall, mono, minimum, m)
    ensures Accepts(ws[file], minimum, m)
    ensures ws[id].wall + minimum as real <= c.deadline as real && ws[id].mono + minimum as real <= m.end
  {
    hide Next, Follows, AlwaysForward;
    AcceptedExactly(c, ws, es, file, id, wall, mono, minimum, m);
    WallGainsOnMono(c, ws, es, file, wall);
    WallGainsOnMono(c, ws, es, id, wall);
    OneProcess(c, ws, es, file, mono);
    OneProcess(c, ws, es, id, mono);
    AcceptedNow(c, ws, es, file, minimum, m);
  }

  // The same for reads at one instant.
  lemma AcceptedNow(c: Config, ws: seq<World>, es: seq<Event>, i: nat, minimum: int, m: Marker)
    requires Sensible(c) && Follows(c, ws, es) && Initial(ws[0]) && i < |ws|
    ensures Accepts(ws[i], minimum, m) <==>
            && Held(ws[i], m) && 0 < minimum <= 1800
            && ws[i].wall + minimum as real <= c.deadline as real && ws[i].mono + minimum as real <= m.end
    ensures Accepts(ws[i], minimum, m) ==> !ws[i].executed
  {
    RunKeepsInv(c, ws, es, i);
  }

  predicate Held(w: World, m: Marker) {
    !w.phase.Down? && w.marker == Some(m) && m.holder.incarnation == w.incarnation
  }

  // This hold is over for good.
  predicate Lost(w: World, m: Marker) {
    || w.incarnation > m.holder.incarnation
    || (w.incarnation == m.holder.incarnation
        && (w.phase.Down? || (w.marker.None? && (w.phase.Stopping? || w.phase.Finished? || w.phase.Native?))))
  }

  lemma HeldOrLost(c: Config, w: World, e: Event, next: World, m: Marker)
    requires Sensible(c) && Inv(c, w) && Next(c, w, e, next)
    ensures Held(w, m) ==> Held(next, m) || Lost(next, m)
    ensures Lost(w, m) ==> Lost(next, m)
  {
  }

  lemma {:induction false} LostStays(c: Config, ws: seq<World>, es: seq<Event>, m: Marker, k: nat, j: nat)
    requires Sensible(c) && Follows(c, ws, es) && Initial(ws[0]) && k <= j < |ws|
    requires Lost(ws[k], m)
    ensures Lost(ws[j], m)
    decreases j
  {
    if k < j {
      LostStays(c, ws, es, m, k, j - 1);
      RunKeepsInv(c, ws, es, j - 1);
      HeldOrLost(c, ws[j - 1], es[j - 1], ws[j], m);
    }
  }

  /**
    Evidence read once and accepted again later is one unbroken hold: between the two the
    marker never changed, the process was never replaced and never executed the native program.
    The instants are those at which the two files were read.
   */
  lemma {:induction false} SameEvidenceOneHold(c: Config, ws: seq<World>, es: seq<Event>, m: Marker, i: nat, k: nat,
                                               j: nat)
    requires Sensible(c) && Follows(c, ws, es) && Initial(ws[0]) && i <= k <= j < |ws|
    requires Held(ws[i], m) && Held(ws[j], m)
    ensures Held(ws[k], m) && !ws[k].executed
    decreases k
  {
    hide Next;
    RunKeepsInv(c, ws, es, k);
    if i < k {
      SameEvidenceOneHold(c, ws, es, m, i, k - 1, j);
      RunKeepsInv(c, ws, es, k - 1);
      HeldOrLost(c, ws[k - 1], es[k - 1], ws[k], m);
      if Lost(ws[k], m) {
        LostStays(c, ws, es, m, k, j);
      }
    }
  }

  // ---------------------------------------------------------------------
  // What an accepted check promises.
  // ---------------------------------------------------------------------

  predicate InHold(p: Phase) {
    p.Published? || p.Holding? || p.Napping?
  }

  // The holder and the clocks are left alone.
  predicate Undisturbed(e: Event) {
    e.Proceeds? || e.Sleeps? || e.Elapses?
  }

  // Either the time asked for has passed, or the hold goes on.
  predicate Promise(c: Config, start: World, minimum: int, m: Marker, w: World) {
    || w.mono - start.mono >= minimum as real
    || (Held(w, m) && InHold(w.phase) && w.wall - start.wall == w.mono - start.mono)
  }

  lemma PromiseStep(c: Config, start: World, minimum: int, m: Marker, w: World, e: Event, next: World)
    requires Sensible(c) && Inv(c, start) && Inv(c, w) && Next(c, w, e, next) && Undisturbed(e)
    requires Accepts(start, minimum, m) && Promise(c, start, minimum, m, w)
    ensures Promise(c, start, minimum, m, next)
  {
  }

  /**
    Without a disturbance, a check that accepts while the holder is in its loop promises the
    time asked for: until then the hold stands and the native program is not executed.
   */
  lemma {:induction false} PromiseIsKept(c: Config, ws: seq<World>, es: seq<Event>, m: Marker, minimum: int, i: nat,
                                         j: nat)
    requires Sensible(c) && Follows(c, ws, es) && Initial(ws[0]) && i <= j < |ws|
    requires Accepts(ws[i], minimum, m) && InHold(ws[i].phase)
    requires forall k :: i <= k < j ==> Undisturbed(es[k])
    ensures Promise(c, ws[i], minimum, m, ws[j])
    decreases j
  {
    hide Next;
    RunKeepsInv(c, ws, es, i);
    if i < j {
      PromiseIsKept(c, ws, es, m, minimum, i, j - 1);
      RunKeepsInv(c, ws, es, j - 1);
      PromiseStep(c, ws[i], minimum, m, ws[j - 1], es[j - 1], ws[j]);
    }
  }

  // ---------------------------------------------------------------------
  // How a hold ends.
  // ---------------------------------------------------------------------

  predicate InLoop(p: Phase) {
    p.Holding? || p.Napping?
  }

  // One of the two clocks has run out for a holder in its loop.
  predicate RunOut(c: Config, w: World) {
    InLoop(w.phase) && (w.wall >= c.deadline as real || w.mono >= w.phase.end)
  }

  /**
    The loop does not outlast its clocks: it sees that one has run out, and stays so, within
    the quarter of a second of one sleep and its overrun.
   */
  lemma {:induction false} RunOutIsSeen(c: Config, ws: seq<World>, es: seq<Event>, i: nat, j: nat)
    requires Sensible(c) && Follows(c, ws, es) && i <= j < |ws|
    requires forall k :: i <= k <= j ==> RunOut(c, ws[k])
    ensures ws[j].mono == ws[i].mono || (ws[j].phase.Holding? && ws[j].mono - ws[i].mono <= 0.25 + c.slack)
    decreases j
  {
    if i < j {
      RunOutIsSeen(c, ws, es, i, j - 1);
      assert Next(c, ws[j - 1], es[j - 1], ws[j]) && RunOut(c, ws[j - 1]) && RunOut(c, ws[j]);
    }
  }

  // How many statements are taken.
  function Statements(es: seq<Event>): nat {
    if es == [] then 0 else Statements(es[..|es| - 1]) + if es[|es| - 1].Proceeds? then 1 else 0
  }

  /**
    Whatever the clocks say, a holder that left its loop and is neither signalled nor killed
    removes its evidence with its next statement and executes the native program with the one
    after that, as the same process.
   */
  lemma {:induction false} EndedHoldServes(c: Config, ws: seq<World>, es: seq<Event>, i: nat, j: nat)
    requires Follows(c, ws, es) && i <= j < |ws| && ws[i].phase.Leaving?
    requires forall k :: i <= k < j ==> !es[k].Signalled? && !es[k].Killed?
    ensures ws[j].incarnation == ws[i].incarnation
    ensures Statements(es[i..j]) == 0 ==> ws[j].phase.Leaving?
    ensures Statements(es[i..j]) == 1 ==> ws[j].phase.Finished? && ws[j].marker.None?
    ensures Statements(es[i..j]) >= 2 ==> ws[j].phase.Native? && ws[j].executed && ws[j].marker.None?
    decreases j
  {
    if i < j {
      EndedHoldServes(c, ws, es, i, j - 1);
      assert es[i..j][..j - i - 1] == es[i..j - 1] && es[i..j][j - i - 1] == es[j - 1];
      assert Next(c, ws[j - 1], es[j - 1], ws[j]);
    }
  }

  /**
    A signal taken between the start of the loop and the execution of the native program ends
    the process: it never executes the native program, and its next statement leaves no evidence.
   */
  lemma {:induction false} SignalledNeverServes(c: Config, ws: seq<World>, es: seq<Event>, i: nat, j: nat)
    requires Sensible(c) && Follows(c, ws, es) && Initial(ws[0]) && i < j < |ws| && es[i].Signalled?
    requires InLoop(ws[i].phase) || ws[i].phase.Leaving? || ws[i].phase.Finished?
    requires ws[j].incarnation == ws[i].incarnation
    ensures !ws[j].executed && (ws[j].phase.Stopping? || ws[j].phase.Down?)
    ensures es[j - 1].Proceeds? && ws[j - 1].phase.Stopping? ==> ws[j].phase.Down? && ws[j].marker.None?
    decreases j
  {
    RunKeepsInv(c, ws, es, i);
    assert Next(c, ws[j - 1], es[j - 1], ws[j]);
    if i + 1 < j {
      NeverYounger(c, ws, es, i, j - 1);
      SignalledNeverServes(c, ws, es, i, j - 1);
    }
  }

  lemma {:induction false} NeverYounger(c: Config, ws: seq<World>, es: seq<Event>, i: nat, j: nat)
    requires Follows(c, ws, es) && i <= j < |ws|
    ensures ws[i].incarnation <= ws[j].incarnation
    decreases j
  {
    if i < j {
      NeverYounger(c, ws, es, i, j - 1);
      assert Next(c, ws[j - 1], es[j - 1], ws[j]);
    }
  }

  // The wall clock is never set back by this step.
  predicate Forward(w: World, e: Event) {
    e.SetsWall? ==> e.wall >= w.wall
  }

  ghost predicate AlwaysForward(ws: seq<World>, es: seq<Event>) {
    |ws| == |es| + 1 && forall i :: 0 <= i < |es| ==> Forward(ws[i], es[i])
  }

  // A holder that left its loop found a clock run out.
  predicate Spent(c: Config, w: World) {
    w.phase.Leaving? && w.marker.Some? ==> w.wall >= c.deadline as real || w.mono >= w.marker.value.end
  }

  lemma {:induction false} LeavesWhenSpent(c: Config, ws: seq<World>, es: seq<Event>, i: nat)
    requires Sensible(c) && Follows(c, ws, es) && Initial(ws[0]) && AlwaysForward(ws, es) && i < |ws|
    ensures Spent(c, ws[i])
    decreases i
  {
    if i > 0 {
      LeavesWhenSpent(c, ws, es, i - 1);
      RunKeepsInv(c, ws, es, i - 1);
      SpentStep(c, ws[i - 1], es[i - 1], ws[i]);
    }
  }

  lemma SpentStep(c: Config, w: World, e: Event, next: World)
    requires Sensible(c) && Inv(c, w) && Next(c, w, e, next) && Forward(w, e) && Spent(c, w)
    ensures Spent(c, next)
  {
  }

  /**
    Where the wall clock is never set back, an accepted check finds the holder in its loop,
    unless a signal has just been delivered.
   */
  lemma AcceptedIsInHold(c: Config, ws: seq<World>, es: seq<Event>, i: nat, minimum: int, m: Marker)
    requires Sensible(c) && Follows(c, ws, es) && Initial(ws[0]) && AlwaysForward(ws, es) && i < |ws|
    requires Accepts(ws[i], minimum, m)
    ensures InHold(ws[i].phase) || ws[i].phase.Stopping?
  {
    RunKeepsInv(c, ws, es, i);
    LeavesWhenSpent(c, ws, es, i);
  }

  /**
    That condition is needed: the wall clock is set past the deadline, the holder leaves its
    loop, the clock is set back, and a check asking for a thousand seconds is accepted though
    the native program is executed at that very instant.
   */
  lemma SetBackBreaksThePromise()
    returns (c: Config, ws: seq<World>, es: seq<Event>, m: Marker, i: nat)
    ensures Sensible(c) && Follows(c, ws, es) && Initial(ws[0]) && i < |ws|
    ensures Accepts(ws[i], 1000, m)
    ensures forall k :: i <= k < |es| ==> Undisturbed(es[k])
    ensures ws[|es|].mono == ws[i].mono && ws[|es|].executed
  {
    c := Config(1800, 0.0);
    m := Marker(Identity(1, Holder), 7, 1800, 1800.0);
    var none: Option<Marker> := None;
    es := [Restarts(false), Proceeds(7), Proceeds(7), Proceeds(7), Proceeds(7), Proceeds(7),
           SetsWall(2000.0), Proceeds(7), SetsWall(0.0), Proceeds(7), Proceeds(7)];
    ws := [World(0.0, 0.0, 0, Down, false, none),
           World(0.0, 0.0, 1, Launched, false, none),
           World(0.0, 0.0, 1, Cleared, false, none),
           World(0.0, 0.0, 1, Timed(1800.0), false, none),
           World(0.0, 0.0, 1, Bound(1800.0), false, none),
           World(0.0, 0.0, 1, Published(1800.0), false, Some(m)),
           World(0.0, 0.0, 1, Holding(1800.0), false, Some(m)),
           World(2000.0, 0.0, 1, Holding(1800.0), false, Some(m)),
           World(2000.0, 0.0, 1, Leaving, false, Some(m)),
           World(0.0, 0.0, 1, Leaving, false, Some(m)),
           World(0.0, 0.0, 1, Finished, false, none),
           World(0.0, 0.0, 1, Native, true, none)];
    i := 9;
  }

  // ---------------------------------------------------------------------
  // Restarts do not extend the absolute deadline.
  // ---------------------------------------------------------------------

  // The monotonic clock never gains on a wall clock that is only set forward.
  lemma {:induction false} WallGainsOnMono(c: Config, ws: seq<World>, es: seq<Event>, i: nat, j: nat)
    requires Sensible(c) && Follows(c, ws, es) && AlwaysForward(ws, es) && i <= j < |ws|
    ensures ws[i].wall <= ws[j].wall
    ensures (forall k :: i <= k < j ==> !es[k].Reboots?) ==> ws[j].mono - ws[i].mono <= ws[j].wall - ws[i].wall
    decreases j
  {
    if i < j {
      WallGainsOnMono(c, ws, es, i, j - 1);
      ClockStep(c, ws[j - 1], es[j - 1], ws[j]);
    }
  }

  lemma ClockStep(c: Config, w: World, e: Event, next: World)
    requires Sensible(c) && Next(c, w, e, next) && Forward(w, e)
    ensures w.wall <= next.wall && (!e.Reboots? ==> next.mono - w.mono <= next.wall - w.wall)
  {
  }

  // From the first start on, however often the holder is stopped, killed and restarted,
  // nothing is accepted later than the hold could have lasted at first.
  lemma RestartsDoNotExtend(c: Config, ws: seq<World>, es: seq<Event>, i: nat, j: nat, minimum: int, m: Marker)
    requires Sensible(c) && Follows(c, ws, es) && Initial(ws[0]) && AlwaysForward(ws, es) && i <= j < |ws|
    requires ws[i].phase.Cleared? && 0.0 < c.deadline as real - ws[i].wall <= 1800.0
    requires forall k :: i <= k < j ==> !es[k].Reboots?
    requires Accepts(ws[j], minimum, m)
    ensures ws[j].mono + minimum as real <= ws[i].mono + (c.deadline as real - ws[i].wall) <= ws[i].mono + 1800.0
  {
    hide Next;
    WallGainsOnMono(c, ws, es, i, j);
    AcceptedNow(c, ws, es, j, minimum, m);
    RunKeepsInv(c, ws, es, i);
  }

  predicate NoHold(p: Phase) {
    p.Down? || p.Launched? || p.Cleared? || p.Native?
  }

  /**
    Once the wall clock has reached the deadline nothing is accepted any more, and every
    later start goes straight to the native program.
   */
  lemma {:induction false} DeadlineIsFinal(c: Config, ws: seq<World>, es: seq<Event>, i: nat, j: nat, minimum: int,
                                           m: Marker)
    requires Sensible(c) && Follows(c, ws, es) && Initial(ws[0]) && AlwaysForward(ws, es) && i <= j < |ws|
    requires ws[i].wall >= c.deadline as real
    ensures !Accepts(ws[j], minimum, m)
    ensures ws[j].incarnation >= ws[i].incarnation
    ensures ws[j].incarnation > ws[i].incarnation ==> NoHold(ws[j].phase)
    decreases j
  {
    hide Next;
    WallGainsOnMono(c, ws, es, i, j);
    AcceptedNow(c, ws, es, j, minimum, m);
    if i < j {
      WallGainsOnMono(c, ws, es, i, j - 1);
      DeadlineIsFinal(c, ws, es, i, j - 1, minimum, m);
      LateStep(c, ws[j - 1], es[j - 1], ws[j]);
    }
  }

  lemma LateStep(c: Config, w: World, e: Event, next: World)
    requires Next(c, w, e, next) && w.wall >= c.deadline as real
    ensures NoHold(w.phase) || next.incarnation == w.incarnation
    ensures NoHold(w.phase) ==> NoHold(next.phase)
    ensures next.incarnation >= w.incarnation
    ensures next.incarnation > w.incarnation ==> NoHold(next.phase)
  {
  }

  // ---------------------------------------------------------------------
  // The program.
  // ---------------------------------------------------------------------

  // The steps taken so far form a run from `first`.
  ghost predicate Trace(c: Config, first: World, ws: seq<World>, es: seq<Event>, last: World) {
    Follows(c, ws, es) && ws[0] == first && ws[|es|] == last
  }

  lemma TraceGrows(c: Config, first: World, ws: seq<World>, es: seq<Event>, last: World, e: Event, next: World)
    requires Trace(c, first, ws, es, last) && Next(c, last, e, next)
    ensures Trace(c, first, ws + [next], es + [e], next)
  {
    forall i | 0 <= i < |es| + 1
      ensures Next(c, (ws + [next])[i], (es + [e])[i], (ws + [next])[i + 1])
    {
      if i < |es| {
        assert Next(c, ws[i], es[i], ws[i + 1]);
      }
    }
  }

  class Container {
    const c: Config
    const first: World
    var w: World
    // Everything that happened, for the proof.
    ghost var worlds: seq<World>
    ghost var events: seq<Event>

    ghost predicate Valid()
      reads this
    {
      Sensible(c) && Inv(c, w) && Trace(c, first, worlds, events, w)
    }

    constructor (c: Config, w: World)
      requires Sensible(c) && Inv(c, w)
      ensures Valid() && this.c == c && this.w == w
    {
      this.c, this.first, this.w := c, w, w;
      worlds, events := [w], [];
    }

    method Take(e: Event, next: World)
      requires Valid() && Next(c, w, e, next)
      modifies this
      ensures Valid() && w == next && worlds == old(worlds) + [w]
    {
      StepKeepsInv(c, w, e, next);
      TraceGrows(c, first, worlds, events, w, e, next);
      w := next;
      worlds, events := worlds + [next], events + [e];
    }

    method Statement(nonce: nat)
      requires Valid()
      modifies this
      ensures Valid() && w == Proceed(c, nonce, old(w)) && worlds == old(worlds) + [w]
    {
      Take(Proceeds(nonce), Proceed(c, nonce, w));
    }

    // Time between two statements, and any change of the wall clock.
    method Pass()
      requires Valid() && !w.phase.Holding? && !w.phase.Napping?
      modifies this
      ensures Valid() && w.mono >= old(w.mono) && w == old(w).(mono := w.mono, wall := w.wall)
      ensures exists between: World :: worlds == old(worlds) + [between, w] && between.marker == w.marker
                && between.phase == w.phase
    {
      var time: real :| time >= 0.0;
      Take(Elapses(time), w.(mono := w.mono + time, wall := w.wall + time));
      ghost var between := w;
      SetWall();
      assert worlds == old(worlds) + [between, w];
    }

    method SetWall()
      requires Valid()
      modifies this
      ensures Valid() && w == old(w).(wall := w.wall) && worlds == old(worlds) + [w]
    {
      var wall: real := *;
      Take(SetsWall(wall), w.(wall := wall));
    }

    /**
      The loop of the hold.  Whatever the wall clock does, it ends by the monotonic end, one
      overrun of a sleep aside; without a signal it ends only when a clock has run out.
     */
    method Hold() returns (signalled: bool)
      requires Valid() && w.phase.Holding?
      modifies this
      ensures Valid() && w == old(w).(phase := w.phase, mono := w.mono, wall := w.wall)
      ensures w.phase == if signalled then Stopping else Leaving
      ensures w.mono <= Max(old(w.mono), old(w.phase.end) + c.slack)
      ensures !signalled ==> w.wall >= c.deadline as real || w.mono >= old(w.phase.end)
      ensures old(worlds) <= worlds
    {
      hide Inv, Trace, Follows;
      ghost var end := w.phase.end;
      while Open(c, w, w.phase.end)
        invariant Valid() && w.phase == Holding(end)
        invariant w == old(w).(mono := w.mono, wall := w.wall)
        invariant w.mono <= Max(old(w.mono), end + c.slack)
        invariant old(worlds) <= worlds
        decreases Left(w.mono, end)
      {
        Statement(0);
        SetWall();
        signalled := *;
        if signalled {
          Take(Signalled, w.(phase := Stopping));
          return;
        }
        var overrun: real :| 0.0 <= overrun && overrun <= c.slack;
        var time := Nap(w) + overrun;
        Take(Sleeps(time), w.(phase := Holding(w.phase.end), mono := w.mono + time, wall := w.wall + time));
      }
      signalled := false;
      Statement(0);
    }

    // A signal may come here.
    method Interrupt() returns (signalled: bool)
      requires Valid() && (w.phase.Leaving? || w.phase.Finished?)
      modifies this
      ensures Valid() && w == if signalled then old(w).(phase := Stopping) else old(w)
      ensures old(worlds) <= worlds
    {
      signalled := *;
      if signalled {
        Take(Signalled, w.(phase := Stopping));
      }
    }

    /**
      The whole start.  The wall clock is read once, when the old evidence is gone.  Evidence
      is published exactly when the deadline then lies ahead within the bound; otherwise the
      native program runs at once.  A hold that is not signalled ends in the native program, a
      signalled one in the end of the process.  However it ends, no evidence is left behind.
     */
    method Start(nonce: nat) returns (duration: real, held: bool, signalled: bool)
      requires Valid() && w.phase.Launched?
      modifies this
      ensures Valid() && w.marker.None? && w.incarnation == old(w.incarnation) && old(worlds) <= worlds
      ensures exists i :: |old(worlds)| <= i < |worlds| && Reads(worlds, i, duration)
      ensures held <==> 0.0 < duration <= 1800.0
      ensures held <==> exists i :: |old(worlds)| <= i < |worlds| && worlds[i].phase.Published?
      ensures held ==> exists k, i :: |old(worlds)| <= k < i && Publishes(worlds, k, i, w.incarnation, nonce, duration)
      ensures !held ==> !signalled && forall i :: |old(worlds)| <= i < |worlds| ==> worlds[i].marker.None?
      ensures w.phase == (if signalled then Down else Native) && w.executed == !signalled
    {
      hide Inv, Trace, Next, Follows, Reads, Publishes;
      ghost var before := worlds;
      duration := Measure(nonce);
      held, signalled := 0.0 < duration <= MAX_HOLD, false;
      if held {
        ghost var measured := worlds;
        ghost var i :| |before| <= i < |measured| && Reads(measured, i, duration);
        signalled := StandUntilOver(nonce);
        ReadsExtends(measured, worlds, i, duration);
      }
    }

    // The statements of a hold, from its evidence to its end.
    method StandUntilOver(nonce: nat) returns (signalled: bool)
      requires Valid() && w.phase.Timed? && !w.executed
      modifies this
      ensures Valid() && w.marker.None? && w.incarnation == old(w.incarnation) && old(worlds) <= worlds
      ensures exists k, i :: |old(worlds)| <= k < i
                && Publishes(worlds, k, i, w.incarnation, nonce, old(w.phase.duration))
      ensures exists i :: |old(worlds)| <= i < |worlds| && worlds[i].phase.Published?
      ensures w.phase == (if signalled then Down else Native) && w.executed == !signalled
    {
      hide Inv, Trace, Next, Follows, Publishes;
      ghost var incarnation, duration := w.incarnation, w.phase.duration;
      ghost var k, i := Publish(nonce);
      ghost var published := worlds;
      Pass();
      Statement(nonce);
      signalled := Hold();
      signalled := Depart(nonce);
      PublishesExtends(published, worlds, k, i, incarnation, nonce, duration);
    }

    // The statements after the loop; a signal may still come between them.
    method Depart(nonce: nat) returns (signalled: bool)
      requires Valid() && (w.phase.Leaving? || w.phase.Stopping?) && !w.executed
      modifies this
      ensures Valid() && w.marker.None? && w.incarnation == old(w.incarnation) && old(worlds) <= worlds
      ensures old(w.phase.Stopping?) ==> signalled
      ensures w.phase == (if signalled then Down else Native) && w.executed == !signalled
    {
      hide Inv, Trace, Next, Follows;
      signalled := w.phase.Stopping?;
      Pass();
      if !signalled {
        signalled := Interrupt();
      }
      Statement(nonce);
      if !signalled {
        Pass();
        signalled := Interrupt();
        Statement(nonce);
      }
    }

    // The monotonic clock is read, and the evidence written with what it then shows.
    method Publish(nonce: nat) returns (ghost k: nat, ghost i: nat)
      requires Valid() && w.phase.Timed?
      modifies this
      ensures Valid() && w.phase.Published? && w.executed == old(w.executed)
      ensures w.incarnation == old(w.incarnation) && old(worlds) <= worlds
      ensures |old(worlds)| <= k < i && Publishes(worlds, k, i, w.incarnation, nonce, old(w.phase.duration))
    {
      hide Inv, Trace, Next, Follows;
      Pass();
      k := |worlds| - 1;
      Statement(nonce);
      Pass();
      Statement(nonce);
      i := |worlds| - 1;
    }

    // The statements up to the decision: the old evidence is removed and the wall clock read.
    method Measure(nonce: nat) returns (duration: real)
      requires Valid() && w.phase.Launched?
      modifies this
      ensures Valid() && w.marker.None? && w.incarnation == old(w.incarnation) && old(worlds) < worlds
      ensures w.phase == (if 0.0 < duration <= MAX_HOLD then Timed(duration) else Native)
      ensures w.executed == w.phase.Native?
      ensures exists i :: |old(worlds)| <= i < |worlds| && Reads(worlds, i, duration)
      ensures forall i :: |old(worlds)| <= i < |worlds| ==> worlds[i].marker.None? && !worlds[i].phase.Published?
    {
      hide Inv, Trace, Next, Follows;
      LaunchedIsNotExecuted(c, w);
      Statement(nonce);
      Pass();
      duration := c.deadline as real - w.wall;
      ghost var i := |worlds| - 1;
      Statement(nonce);
      assert Reads(worlds, i, duration);
    }

    // At the i-th instant the remaining time is measured, and the next one holds what it decides.
    ghost predicate Reads(worlds: seq<World>, i: nat, duration: real) {
      && i + 1 < |worlds| && worlds[i].phase.Cleared? && duration == c.deadline as real - worlds[i].wall
      && worlds[i + 1].phase == if 0.0 < duration <= 1800.0 then Timed(duration) else Native
    }

    lemma ReadsExtends(measured: seq<World>, worlds: seq<World>, i: nat, duration: real)
      requires Reads(measured, i, duration) && measured <= worlds
      ensures Reads(worlds, i, duration)
    {
    }

    // At the k-th instant the monotonic clock is read; from the i-th on the file holds
    // evidence that ends that much later.
    ghost predicate Publishes(worlds: seq<World>, k: nat, i: nat, incarnation: nat, nonce: nat, duration: real) {
      && k < i < |worlds| && worlds[k].phase == Timed(duration) && worlds[i].phase.Published?
      && worlds[i].marker == Some(Marker(Identity(incarnation, Holder), nonce, c.deadline, worlds[k].mono + duration))
    }

    lemma PublishesExtends(published: seq<World>, worlds: seq<World>, k: nat, i: nat, incarnation: nat, nonce: nat,
                           duration: real)
      requires Publishes(published, k, i, incarnation, nonce, duration) && published <= worlds
      ensures Publishes(worlds, k, i, incarnation, nonce, duration) && worlds[i].phase.Published?
    {
    }
  }

  function Max(a: real, b: real): real {
    if a < b then b else a
  }

  // Four sleeps a second bound the rounds that are left.
  function Left(mono: real, end: real): real {
    if mono >= end then 0.0 else 4.0 * (end - mono) + 1.0
  }
}
