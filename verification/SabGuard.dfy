/**
  The SAB WAN guard: a crash-tolerant owner of a download queue's pause.

  A four-state journal is made durable before each command.  The model keeps the
  journal file, the one guard process (or its absence) and the events of a run.
  Answers of the gateway and of the queue, and the fate of every journal write,
  are inputs, so a lemma about all inputs is a lemma about every failure, crash
  and restart.
 */
module SabGuard {
  import opened Wrappers

  datatype State = Idle | PausePending | Owned | ResumePending

  datatype Wan = Primary | Backup | Unknown

  datatype Command = Pause | Resume

  // The journal file.  A state text outside the four known ones reads as None.
  datatype File = Absent | Document(version: int, state: Option<State>)

  // An API call answers, raises, or the process dies inside it.
  datatype Answer<+T> = Got(value: T) | Raised | Died

  datatype Reply = Accepted | Refused | Cut

  // A journal write succeeds, or the process ends (failed write or death) with
  // the durable file either still old or already replaced.
  datatype SaveResult = Saved | Lost(replaced: bool)

  datatype Script = Script(
    wan: Answer<Wan>, paused: Answer<bool>,
    relinquish: SaveResult, prepare: SaveResult,
    command: Reply, confirm: Answer<bool>, finish: SaveResult)

  datatype Process = Down | Up(memory: State, primarySince: Option<real>, lastPoll: Option<real>)

  datatype Event =
    | Polled(now: real, wan: Wan, paused: bool)
    | SaveLost(target: State)
    | Sent(command: Command, durable: File)
    | Confirmed(command: Command)

  datatype Sys = Sys(file: File, process: Process, events: seq<Event>)

  const MAX_GAP := 60.0
  const DWELL := 120.0

  function Doc(state: State): File {
    Document(1, Some(state))
  }

  predicate Pending(state: State) {
    state.PausePending? || state.ResumePending?
  }

  predicate Ambiguous(file: File) {
    file == Doc(PausePending) || file == Doc(ResumePending)
  }

  // ---------------------------------------------------------------------
  // Specification of one poll.
  // ---------------------------------------------------------------------

  function Forget(up: Process): Process
    requires up.Up?
  {
    up.(primarySince := None, lastPoll := None)
  }

  // The dwell timer after a poll that answered `wan` at time `now`.
  function Timed(up: Process, now: real, wan: Wan): Process
    requires up.Up?
  {
    var since := if up.lastPoll.None? || !(0.0 <= now - up.lastPoll.value <= MAX_GAP) then None else up.primarySince;
    up.(lastPoll := Some(now),
        primarySince := if !wan.Primary? then None else if since.None? then Some(now) else since)
  }

  // A journal write followed, when it survives, by nothing else.
  function Written(file: File, up: Process, target: State, result: SaveResult, events: seq<Event>): Sys
    requires up.Up?
  {
    match result
    case Saved => Sys(Doc(target), up.(memory := target), events)
    case Lost(replaced) => Sys(if replaced then Doc(target) else file, Down, events + [SaveLost(target)])
  }

  // The command protocol: intent made durable, command sent, effect confirmed, outcome recorded.
  function Issued(file: File, up: Process, command: Command, s: Script, events: seq<Event>): Sys
    requires up.Up?
  {
    var intent := if command.Pause? then PausePending else ResumePending;
    var outcome := if command.Pause? then Owned else Idle;
    var prepared := Written(file, up, intent, s.prepare, events);
    if prepared.process.Down? then prepared
    else
      var sent := prepared.(events := events + [Sent(command, prepared.file)]);
      if s.command.Cut? then sent.(process := Down)
      else if s.command.Refused? || s.confirm.Raised? then sent.(process := Forget(sent.process))
      else if s.confirm.Died? then sent.(process := Down)
      else if s.confirm.value != command.Pause? then sent.(process := Forget(sent.process))
      else Written(sent.file, sent.process, outcome, s.finish, sent.events + [Confirmed(command)])
  }

  function Decided(file: File, up: Process, now: real, wan: Wan, paused: bool, s: Script, events: seq<Event>): Sys
    requires up.Up?
  {
    if wan.Backup? && !paused && up.memory.Idle? then
      Issued(file, up, Pause, s, events)
    else if wan.Primary? && paused && up.memory.Owned? && up.primarySince.Some?
      && now - up.primarySince.value >= DWELL then
      Issued(file, up, Resume, s, events)
    else
      Sys(file, up, events)
  }

  function Ticked(file: File, up: Process, now: real, s: Script, log: seq<Event>): Sys
    requires up.Up?
  {
    if s.wan.Died? || (s.wan.Got? && s.paused.Died?) then Sys(file, Down, log)
    else if s.wan.Raised? || s.paused.Raised? then Sys(file, Forget(up), log)
    else
      var wan, paused := s.wan.value, s.paused.value;
      var timed, events := Timed(up, now, wan), log + [Polled(now, wan, paused)];
      if Pending(up.memory) then Sys(file, timed, events)
      else if up.memory.Owned? && !paused then
        var relinquished := Written(file, timed, Idle, s.relinquish, events);
        if relinquished.process.Down? then relinquished
        else Decided(relinquished.file, relinquished.process, now, wan, paused, s, events)
      else Decided(file, timed, now, wan, paused, s, events)
  }

  // Loading the journal at process start; an unreadable journal stops the process.
  function Started(file: File, save: SaveResult, log: seq<Event>): Sys {
    match file
    case Absent => Written(file, Up(Idle, None, None), Idle, save, log)
    case Document(version, state) =>
      if version != 1 || state.None? then Sys(file, Down, log)
      else Sys(file, Up(state.value, None, None), log)
  }

  // ---------------------------------------------------------------------
  // The program: a journal object over a file, and a guard over the journal.
  // ---------------------------------------------------------------------

  // The state directory, with the history of everything observed so far.
  class Disk {
    var file: File
    ghost var log: seq<Event>

    constructor ()
      ensures file == Absent && log == []
    {
      file := Absent;
      log := [];
    }
  }

  class Journal {
    const disk: Disk
    var state: State

    constructor (disk: Disk, state: State)
      ensures this.disk == disk && this.state == state
    {
      this.disk := disk;
      this.state := state;
    }

    method Save(target: State, result: SaveResult) returns (alive: bool)
      modifies this`state, disk
      ensures alive == result.Saved?
      ensures state == if alive then target else old(state)
      ensures disk.file == if result == Lost(false) then old(disk.file) else Doc(target)
      ensures disk.log == if alive then old(disk.log) else old(disk.log) + [SaveLost(target)]
    {
      match result {
        case Saved =>
          disk.file := Doc(target);
          state := target;
          alive := true;
        case Lost(replaced) =>
          if replaced {
            disk.file := Doc(target);
          }
          disk.log := disk.log + [SaveLost(target)];
          alive := false;
      }
    }
  }

  method OpenJournal(disk: Disk, save: SaveResult) returns (journal: Journal?)
    modifies disk
    ensures var after := Started(old(disk.file), save, old(disk.log));
            && disk.file == after.file
            && disk.log == after.events
            && (journal == null <==> after.process.Down?)
            && (journal != null ==> fresh(journal) && journal.disk == disk && journal.state == after.process.memory)
  {
    journal := null;
    if disk.file.Document? {
      if disk.file.version == 1 && disk.file.state.Some? {
        journal := new Journal(disk, disk.file.state.value);
      }
    } else {
      var first := new Journal(disk, Idle);
      var alive := first.Save(Idle, save);
      if alive {
        journal := first;
      }
    }
  }

  class Guard {
    const journal: Journal
    var primarySince: Option<real>
    var lastPoll: Option<real>

    constructor (journal: Journal)
      ensures this.journal == journal && primarySince.None? && lastPoll.None?
    {
      this.journal := journal;
      primarySince, lastPoll := None, None;
    }

    ghost function Memory(): Process
      reads this, journal
    {
      Up(journal.state, primarySince, lastPoll)
    }

    // One poll.  `alive` is false when the process has ended.
    method Tick(now: real, s: Script) returns (alive: bool)
      modifies this, journal`state, journal.disk
      ensures var after := Ticked(old(journal.disk.file), old(Memory()), now, s, old(journal.disk.log));
              && journal.disk.file == after.file
              && journal.disk.log == after.events
              && alive == after.process.Up?
              && (alive ==> Memory() == after.process)
    {
      alive := true;
      if s.wan.Died? || (s.wan.Got? && s.paused.Died?) {
        return false;
      }
      if s.wan.Raised? || s.paused.Raised? {
        primarySince, lastPoll := None, None;
        return;
      }
      var wan, paused := s.wan.value, s.paused.value;
      journal.disk.log := journal.disk.log + [Polled(now, wan, paused)];
      if lastPoll.None? || !(0.0 <= now - lastPoll.value <= MAX_GAP) {
        primarySince := None;
      }
      lastPoll := Some(now);
      if wan != Primary {
        primarySince := None;
      } else if primarySince.None? {
        primarySince := Some(now);
      }
      var state := journal.state;
      if state.PausePending? || state.ResumePending? {
        return;
      }
      if state.Owned? && !paused {
        // A caller resumed the queue: relinquish before possibly pausing anew.
        alive := journal.Save(Idle, s.relinquish);
        if !alive {
          return;
        }
        state := Idle;
      }
      if wan.Backup? && !paused && state.Idle? {
        alive := Act(Pause, s);
      } else if wan.Primary? && paused && state.Owned? && now - primarySince.value >= DWELL {
        alive := Act(Resume, s);
      }
    }

    // The body shared by the two command branches of a poll.
    method Act(command: Command, s: Script) returns (alive: bool)
      modifies this, journal`state, journal.disk
      ensures var after := Issued(old(journal.disk.file), old(Memory()), command, s, old(journal.disk.log));
              && journal.disk.file == after.file
              && journal.disk.log == after.events
              && alive == after.process.Up?
              && (alive ==> Memory() == after.process)
    {
      alive := journal.Save(if command.Pause? then PausePending else ResumePending, s.prepare);
      if !alive {
        return;
      }
      journal.disk.log := journal.disk.log + [Sent(command, journal.disk.file)];
      if s.command.Cut? {
        return false;
      }
      if s.command.Refused? || s.confirm.Raised? {
        primarySince, lastPoll := None, None;
        return;
      }
      if s.confirm.Died? {
        return false;
      }
      if s.confirm.value != command.Pause? {
        primarySince, lastPoll := None, None;
        return;
      }
      journal.disk.log := journal.disk.log + [Confirmed(command)];
      alive := journal.Save(if command.Pause? then Owned else Idle, s.finish);
    }
  }

  // ---------------------------------------------------------------------
  // Runs: polls, deaths between polls, and restarts, from an absent journal.
  // ---------------------------------------------------------------------

  datatype Step = Tick(now: real, script: Script) | Kill | Start(save: SaveResult)

  // A start replaces whatever process there was: only one guard ever runs.
  function Next(sys: Sys, step: Step): Sys {
    match step
    case Kill => sys.(process := Down)
    case Tick(now, s) => if sys.process.Up? then Ticked(sys.file, sys.process, now, s, sys.events) else sys
    case Start(save) => Started(sys.file, save, sys.events)
  }

  function Run(steps: seq<Step>): Sys {
    if steps == [] then Sys(Absent, Down, [])
    else Next(Run(steps[..|steps| - 1]), steps[|steps| - 1])
  }

  lemma RunStep(steps: seq<Step>, n: nat)
    requires n < |steps|
    ensures Run(steps[..n + 1]) == Next(Run(steps[..n]), steps[n])
  {
    assert steps[..n + 1][..n] == steps[..n];
  }

  // ---------------------------------------------------------------------
  // Ownership and write-ahead.
  // ---------------------------------------------------------------------

  predicate IsResume(e: Event) {
    e.Sent? && e.command.Resume?
  }

  predicate FoundRunning(e: Event) {
    e.Polled? && !e.paused
  }

  predicate WrittenAhead(e: Event) {
    e.Sent? ==> e.durable == Doc(if e.command.Pause? then PausePending else ResumePending)
  }

  // `c` is the last confirmed pause, no resume has spent it, and every later poll
  // that found the queue running died while relinquishing.
  ghost predicate HeldSince(events: seq<Event>, c: nat) {
    && c < |events|
    && events[c] == Confirmed(Pause)
    && (forall m :: c < m < |events| ==> events[m] != Confirmed(Pause) && !IsResume(events[m]))
    && (forall m :: c < m < |events| && FoundRunning(events[m]) ==> m + 1 < |events| && events[m + 1] == SaveLost(Idle))
  }

  ghost predicate Held(events: seq<Event>) {
    exists c: nat :: HeldSince(events, c)
  }

  // Every command was sent with its intent durable, and every resume spent a held pause.
  ghost predicate Lawful(events: seq<Event>) {
    && (forall e :: e in events ==> WrittenAhead(e))
    && (forall i :: 0 <= i < |events| && IsResume(events[i]) ==> Held(events[..i]))
  }

  ghost predicate Sound(sys: Sys) {
    && (sys.file == Absent || exists state :: sys.file == Doc(state))
    && (sys.process.Up? ==> sys.file == Doc(sys.process.memory))
    && Lawful(sys.events)
    && (sys.file == Doc(Owned) ==> Held(sys.events))
  }

  lemma LawfulExtends(events: seq<Event>, e: Event)
    requires Lawful(events) && WrittenAhead(e)
    requires IsResume(e) ==> Held(events)
    ensures Lawful(events + [e])
  {
    var more := events + [e];
    forall i | 0 <= i < |more| && IsResume(more[i])
      ensures Held(more[..i])
    {
      assert more[..i] == events[..i];
      assert events[..|events|] == events;
    }
  }

  lemma HeldExtends(events: seq<Event>, e: Event)
    requires Held(events)
    requires e != Confirmed(Pause) && !IsResume(e) && !FoundRunning(e)
    ensures Held(events + [e])
  {
    var c: nat :| HeldSince(events, c);
    assert HeldSince(events + [e], c);
  }

  lemma HeldThroughLostSave(events: seq<Event>, now: real, wan: Wan)
    requires Held(events)
    ensures Held(events + [Polled(now, wan, false)] + [SaveLost(Idle)])
  {
    var c: nat :| HeldSince(events, c);
    assert HeldSince(events + [Polled(now, wan, false)] + [SaveLost(Idle)], c);
  }

  lemma HeldStarts(events: seq<Event>)
    ensures Held(events + [Confirmed(Pause)])
  {
    assert HeldSince(events + [Confirmed(Pause)], |events|);
  }

  lemma WrittenSound(file: File, up: Process, target: State, result: SaveResult, events: seq<Event>)
    requires up.Up? && Lawful(events)
    requires file == Absent || file == Doc(up.memory)
    requires file == Doc(Owned) ==> Held(events + [SaveLost(target)])
    requires target.Owned? ==> Held(events)
    ensures Sound(Written(file, up, target, result, events))
  {
    LawfulExtends(events, SaveLost(target));
    if target.Owned? {
      HeldExtends(events, SaveLost(target));
    }
  }

  lemma IssuedSound(file: File, up: Process, command: Command, s: Script, events: seq<Event>)
    requires up.Up? && file == Doc(up.memory) && Lawful(events)
    requires command.Pause? ==> up.memory.Idle?
    requires command.Resume? ==> up.memory.Owned? && Held(events)
    ensures Sound(Issued(file, up, command, s, events))
  {
    var intent := if command.Pause? then PausePending else ResumePending;
    if up.memory.Owned? {
      HeldExtends(events, SaveLost(intent));
    }
    WrittenSound(file, up, intent, s.prepare, events);
    var sent := events + [Sent(command, Doc(intent))];
    LawfulExtends(events, Sent(command, Doc(intent)));
    LawfulExtends(sent, Confirmed(command));
    HeldStarts(sent);
    if command.Pause? {
      HeldExtends(sent + [Confirmed(command)], SaveLost(Owned));
    }
    if s.prepare.Saved? && s.command.Accepted? && s.confirm == Got(command.Pause?) {
      WrittenSound(Doc(intent), up.(memory := intent),
                   if command.Pause? then Owned else Idle, s.finish, sent + [Confirmed(command)]);
    }
  }

  lemma TickedSound(file: File, up: Process, now: real, s: Script, log: seq<Event>)
    requires up.Up? && Sound(Sys(file, up, log))
    ensures Sound(Ticked(file, up, now, s, log))
  {
    if s.wan.Got? && s.paused.Got? {
      var wan, paused := s.wan.value, s.paused.value;
      var timed, events := Timed(up, now, wan), log + [Polled(now, wan, paused)];
      LawfulExtends(log, Polled(now, wan, paused));
      if up.memory.Owned? && !paused {
        HeldThroughLostSave(log, now, wan);
        WrittenSound(file, timed, Idle, s.relinquish, events);
        IssuedSoundIfIdle(s.relinquish, timed, s, events);
      } else {
        if up.memory.Owned? {
          HeldExtends(log, Polled(now, wan, paused));
        }
        if up.memory.Idle? {
          IssuedSound(file, timed, Pause, s, events);
        } else if up.memory.Owned? {
          IssuedSound(file, timed, Resume, s, events);
        }
      }
    }
  }

  lemma IssuedSoundIfIdle(relinquish: SaveResult, timed: Process, s: Script, events: seq<Event>)
    requires timed.Up? && Lawful(events)
    ensures relinquish.Saved? ==> Sound(Issued(Doc(Idle), timed.(memory := Idle), Pause, s, events))
  {
    IssuedSound(Doc(Idle), timed.(memory := Idle), Pause, s, events);
  }

  lemma StepSound(sys: Sys, step: Step)
    requires Sound(sys)
    ensures Sound(Next(sys, step))
  {
    match step {
      case Kill =>
      case Tick(now, s) =>
        if sys.process.Up? {
          TickedSound(sys.file, sys.process, now, s, sys.events);
        }
      case Start(save) =>
        if sys.file.Absent? {
          WrittenSound(sys.file, Up(Idle, None, None), Idle, save, sys.events);
        }
    }
  }

  lemma {:induction false} RunSound(steps: seq<Step>)
    ensures Sound(Run(steps))
  {
    if steps != [] {
      RunSound(steps[..|steps| - 1]);
      StepSound(Run(steps[..|steps| - 1]), steps[|steps| - 1]);
    }
  }

  // Whatever fails, a command is on the wire only after its intent is durable.
  lemma {:induction false} CommandsAreWrittenAhead(steps: seq<Step>, e: Event)
    requires e in Run(steps).events && e.Sent?
    ensures e.durable == Doc(if e.command.Pause? then PausePending else ResumePending)
  {
    RunSound(steps);
  }

  // Every poll between a confirmed pause and the resume that spends it found the
  // queue paused, unless the process died giving the pause up.
  lemma OwnershipIsHonest(steps: seq<Step>, i: nat, j: nat, m: nat)
    requires i < m < j < |Run(steps).events|
    requires Run(steps).events[i] == Confirmed(Pause) && IsResume(Run(steps).events[j])
    requires forall n :: i < n < j ==> Run(steps).events[n] != Confirmed(Pause)
    requires Run(steps).events[m].Polled?
    ensures Run(steps).events[m].paused || (m + 1 < j && Run(steps).events[m + 1] == SaveLost(Idle))
    ensures forall n :: i < n < j ==> !IsResume(Run(steps).events[n])
  {
    hide Run;
    RunSound(steps);
    LawfulIsHonest(Run(steps).events, i, j, m);
  }

  lemma LawfulIsHonest(events: seq<Event>, i: nat, j: nat, m: nat)
    requires Lawful(events) && i < m < j < |events|
    requires events[i] == Confirmed(Pause) && IsResume(events[j]) && events[m].Polled?
    requires forall n :: i < n < j ==> events[n] != Confirmed(Pause)
    ensures events[m].paused || (m + 1 < j && events[m + 1] == SaveLost(Idle))
    ensures forall n :: i < n < j ==> !IsResume(events[n])
  {
    hide HeldSince, WrittenAhead;
    var before := events[..j];
    var c: nat :| HeldSince(before, c);
    HeldFacts(before, c, i);
    HeldFacts(before, c, m);
    assert c == i by {
      assert before[i] == events[i];
      HeldFacts(before, c, c);
      assert before[c] == events[c];
    }
    forall n | i < n < j
      ensures !IsResume(events[n])
    {
      HeldFacts(before, c, n);
      assert before[n] == events[n];
    }
    assert before[m] == events[m];
  }

  lemma HeldFacts(events: seq<Event>, c: nat, m: nat)
    requires HeldSince(events, c)
    ensures c < |events| && events[c] == Confirmed(Pause)
    ensures c < m < |events| ==> events[m] != Confirmed(Pause) && !IsResume(events[m])
    ensures c < m < |events| && FoundRunning(events[m]) ==> m + 1 < |events| && events[m + 1] == SaveLost(Idle)
  {
  }

  function Resumes(events: seq<Event>): nat {
    if events == [] then 0
    else Resumes(events[..|events| - 1]) + if IsResume(events[|events| - 1]) then 1 else 0
  }

  function ConfirmedPauses(events: seq<Event>): nat {
    if events == [] then 0
    else ConfirmedPauses(events[..|events| - 1]) + if events[|events| - 1] == Confirmed(Pause) then 1 else 0
  }

  ghost predicate Unspent(events: seq<Event>) {
    exists c: nat :: c < |events| && events[c] == Confirmed(Pause)
                     && forall m :: c < m < |events| ==> !IsResume(events[m])
  }

  lemma LawfulPrefix(events: seq<Event>, n: nat)
    requires Lawful(events) && n <= |events|
    ensures Lawful(events[..n])
    ensures n < |events| && IsResume(events[n]) ==> Unspent(events[..n])
  {
    forall i | 0 <= i < n && IsResume(events[..n][i])
      ensures Held(events[..n][..i])
    {
      assert events[..n][..i] == events[..i];
    }
  }

  lemma UnspentPrefix(events: seq<Event>)
    requires events != [] && Unspent(events) && events[|events| - 1] != Confirmed(Pause)
    ensures Unspent(events[..|events| - 1]) && !IsResume(events[|events| - 1])
  {
    var c: nat :| c < |events| && events[c] == Confirmed(Pause)
                  && forall m :: c < m < |events| ==> !IsResume(events[m]);
    assert events[..|events| - 1][c] == Confirmed(Pause);
  }

  lemma NothingUnspent()
    ensures !Unspent([])
  {
  }

  lemma {:induction false} LawfulBalance(events: seq<Event>)
    requires Lawful(events)
    ensures Resumes(events) <= ConfirmedPauses(events)
    ensures Unspent(events) ==> Resumes(events) < ConfirmedPauses(events)
  {
    hide Lawful, Unspent;
    if events != [] {
      LawfulPrefix(events, |events| - 1);
      LawfulBalance(events[..|events| - 1]);
      if Unspent(events) && events[|events| - 1] != Confirmed(Pause) {
        UnspentPrefix(events);
      }
    } else {
      NothingUnspent();
    }
  }

  // In every prefix of a run resumes never outnumber confirmed pauses.
  lemma ResumesNeverOutnumberPauses(steps: seq<Step>, n: nat)
    requires n <= |Run(steps).events|
    ensures Resumes(Run(steps).events[..n]) <= ConfirmedPauses(Run(steps).events[..n])
  {
    RunSound(steps);
    LawfulPrefix(Run(steps).events, n);
    LawfulBalance(Run(steps).events[..n]);
  }

  // Between two resumes the guard confirmed a pause of its own.
  lemma PauseBetweenResumes(steps: seq<Step>, i: nat, j: nat) returns (c: nat)
    requires i < j < |Run(steps).events|
    requires IsResume(Run(steps).events[i]) && IsResume(Run(steps).events[j])
    ensures i < c < j && Run(steps).events[c] == Confirmed(Pause)
  {
    RunSound(steps);
    var events := Run(steps).events;
    c :| HeldSince(events[..j], c);
    assert events[..j][i] == events[i];
  }

  // ---------------------------------------------------------------------
  // Ambiguity absorbs.
  // ---------------------------------------------------------------------

  // Once the durable journal says that a command may or may not have happened, no
  // later poll, death or restart changes it or sends anything.
  lemma {:induction false} AmbiguityAbsorbs(steps: seq<Step>, i: nat, j: nat)
    requires i <= j <= |steps|
    requires Ambiguous(Run(steps[..i]).file)
    ensures Run(steps[..j]).file == Run(steps[..i]).file
    ensures Run(steps[..i]).events <= Run(steps[..j]).events
    ensures forall m :: |Run(steps[..i]).events| <= m < |Run(steps[..j]).events| ==> Run(steps[..j]).events[m].Polled?
    decreases j
  {
    if i < j {
      AmbiguityAbsorbs(steps, i, j - 1);
      RunStep(steps, j - 1);
      RunSound(steps[..j - 1]);
    }
  }

  // ---------------------------------------------------------------------
  // The dwell before a resume.
  // ---------------------------------------------------------------------

  // The monotonic time of a poll.
  function Clock(step: Step): real {
    if step.Tick? then step.now else 0.0
  }

  ghost predicate PrimaryPoll(steps: seq<Step>, i: nat)
    requires i < |steps|
  {
    && steps[i].Tick?
    && steps[i].script.wan == Got(Primary)
    && steps[i].script.paused.Got?
    && Run(steps[..i]).process.Up?
  }

  // Steps j to k are all answered polls of one process that found the primary link up,
  // at most a minute apart and never back in time.
  ghost predicate Chain(steps: seq<Step>, j: nat, k: nat) {
    && j <= k < |steps|
    && (forall i :: j <= i <= k ==> PrimaryPoll(steps, i))
    && (forall i :: j < i <= k ==> 0.0 <= Clock(steps[i]) - Clock(steps[i - 1]) <= MAX_GAP)
  }

  ghost predicate ChainFrom(steps: seq<Step>, k: nat, since: real) {
    exists j: nat :: Chain(steps, j, k) && Clock(steps[j]) == since
  }

  lemma TimerAfterTick(file: File, up: Process, now: real, s: Script, log: seq<Event>)
    requires up.Up?
    ensures var after := Ticked(file, up, now, s, log);
            after.process.Up? && after.process.primarySince.Some? ==>
              && s.wan == Got(Primary) && s.paused.Got?
              && after.process.lastPoll == Some(now)
              && after.process.primarySince == Timed(up, now, Primary).primarySince
  {
  }

  lemma ResumeNeedsDwell(file: File, up: Process, now: real, s: Script, log: seq<Event>, m: nat)
    requires up.Up?
    requires |log| <= m < |Ticked(file, up, now, s, log).events|
    requires IsResume(Ticked(file, up, now, s, log).events[m])
    ensures s.wan == Got(Primary) && s.paused == Got(true)
    ensures now - Timed(up, now, Primary).primarySince.value >= DWELL
  {
  }

  // A timer that runs on extends its chain; a fresh one starts a chain.
  lemma TimedChain(steps: seq<Step>, n: nat)
    requires n < |steps| && PrimaryPoll(steps, n)
    requires DwellInvariant(steps, n)
    ensures ChainFrom(steps, n, Timed(Run(steps[..n]).process, Clock(steps[n]), Primary).primarySince.value)
  {
    hide Run, PrimaryPoll;
    PollIsUp(steps, n);
    var up, now := Run(steps[..n]).process, Clock(steps[n]);
    var since := Timed(up, now, Primary).primarySince.value;
    if up.Up? && up.lastPoll.Some? && 0.0 <= now - up.lastPoll.value <= MAX_GAP && up.primarySince.Some? {
      var j: nat :| Chain(steps, j, n - 1) && Clock(steps[j]) == since;
      ChainExtends(steps, j, n);
      assert Chain(steps, j, n) && Clock(steps[j]) == since;
    } else {
      ChainStarts(steps, n);
      assert Chain(steps, n, n) && Clock(steps[n]) == since;
    }
  }

  lemma PollIsUp(steps: seq<Step>, n: nat)
    requires n < |steps| && PrimaryPoll(steps, n)
    ensures steps[n].Tick? && Run(steps[..n]).process.Up?
  {
    hide Run;
  }

  lemma ChainExtends(steps: seq<Step>, j: nat, n: nat)
    requires 0 < n < |steps| && Chain(steps, j, n - 1) && PrimaryPoll(steps, n)
    requires 0.0 <= Clock(steps[n]) - Clock(steps[n - 1]) <= MAX_GAP
    ensures Chain(steps, j, n)
  {
    hide Run, PrimaryPoll;
  }

  lemma ChainStarts(steps: seq<Step>, n: nat)
    requires n < |steps| && PrimaryPoll(steps, n)
    ensures Chain(steps, n, n)
  {
    hide Run, PrimaryPoll;
  }

  ghost predicate DwellInvariant(steps: seq<Step>, n: nat)
    requires n <= |steps|
  {
    var process := Run(steps[..n]).process;
    process.Up? && process.primarySince.Some? ==>
      && n > 0
      && steps[n - 1].Tick? && process.lastPoll == Some(Clock(steps[n - 1]))
      && ChainFrom(steps, n - 1, process.primarySince.value)
  }

  lemma {:induction false} DwellInvariantHolds(steps: seq<Step>, n: nat)
    requires n <= |steps|
    ensures DwellInvariant(steps, n)
  {
    hide Run, Next, Timed, ChainFrom;
    if n == 0 {
      assert steps[..0] == [];
      NothingRuns();
    } else {
      DwellInvariantHolds(steps, n - 1);
      RunStep(steps, n - 1);
      TimerAfterStep(Run(steps[..n - 1]), steps[n - 1]);
      if PrimaryPoll(steps, n - 1) {
        TimedChain(steps, n - 1);
      }
    }
  }

  lemma NothingRuns()
    ensures Run([]).process.Down?
  {
  }

  // Only an answered poll that found the primary link up leaves a timer running.
  lemma TimerAfterStep(sys: Sys, step: Step)
    ensures var process := Next(sys, step).process;
            process.Up? && process.primarySince.Some? ==>
              && step.Tick? && sys.process.Up? && step.script.wan == Got(Primary) && step.script.paused.Got?
              && process.lastPoll == Some(step.now)
              && process.primarySince == Timed(sys.process, step.now, Primary).primarySince
  {
    hide Ticked, Timed;
    if step.Tick? && sys.process.Up? {
      TimerAfterTick(sys.file, sys.process, step.now, step.script, sys.events);
    }
  }

  // A resume sent by step k ends an unbroken chain of polls, all primary, at least
  // two minutes long and therefore at least three polls.
  lemma ResumeEndsADwell(steps: seq<Step>, k: nat, m: nat) returns (j: nat)
    requires k < |steps|
    requires |Run(steps[..k]).events| <= m < |Run(steps[..k + 1]).events|
    requires IsResume(Run(steps[..k + 1]).events[m])
    ensures Chain(steps, j, k)
    ensures Clock(steps[k]) - Clock(steps[j]) >= DWELL
    ensures k - j >= 2
  {
    RunStep(steps, k);
    DwellInvariantHolds(steps, k);
    var before, step := Run(steps[..k]), steps[k];
    ResumeNeedsDwell(before.file, before.process, step.now, step.script, before.events, m);
    TimedChain(steps, k);
    j :| Chain(steps, j, k) && Clock(steps[j]) == Timed(before.process, step.now, Primary).primarySince.value;
    assert j < k ==> Clock(steps[j + 1]) - Clock(steps[j]) <= MAX_GAP;
  }

  lemma StillOwned(file: File, up: Process, now: real, s: Script, log: seq<Event>)
    requires up.Up? && s.wan == Got(Primary) && s.paused.Got?
    requires var after := Ticked(file, up, now, s, log).process; after.Up? && after.memory.Owned?
    ensures up.memory.Owned? && Ticked(file, up, now, s, log).process == Timed(up, now, Primary)
  {
  }

  // While a chain leaves the pause owned, its timer started no later than the chain did.
  lemma {:induction false} OwnedThroughChain(steps: seq<Step>, j: nat, k: nat, n: nat)
    requires Chain(steps, j, k) && j < n <= k
    requires Run(steps[..n]).process.Up? && Run(steps[..n]).process.memory.Owned?
    ensures var process := Run(steps[..n]).process;
            && process.primarySince.Some? && process.primarySince.value <= Clock(steps[j])
            && process.lastPoll == Some(Clock(steps[n - 1]))
    decreases n
  {
    hide Ticked, Run;
    RunStep(steps, n - 1);
    var before, step := Run(steps[..n - 1]), steps[n - 1];
    assert PrimaryPoll(steps, n - 1);
    StillOwned(before.file, before.process, step.now, step.script, before.events);
    if j < n - 1 {
      OwnedThroughChain(steps, j, k, n - 1);
      assert 0.0 <= Clock(steps[n - 1]) - Clock(steps[n - 2]) <= MAX_GAP;
    } else {
      TimerNotAhead(steps, n - 1);
    }
  }

  // A running timer never started after the last poll.
  lemma TimerNotAhead(steps: seq<Step>, n: nat)
    requires n <= |steps|
    ensures var process := Run(steps[..n]).process;
            process.Up? && process.primarySince.Some? ==>
              process.lastPoll.Some? && process.primarySince.value <= process.lastPoll.value
  {
    hide Run;
    DwellInvariantHolds(steps, n);
    var process := Run(steps[..n]).process;
    if process.Up? && process.primarySince.Some? {
      var i: nat :| Chain(steps, i, n - 1) && Clock(steps[i]) == process.primarySince.value;
      ChainAdvances(steps, i, n - 1);
    }
  }

  lemma {:induction false} ChainAdvances(steps: seq<Step>, j: nat, k: nat)
    requires Chain(steps, j, k)
    ensures Clock(steps[j]) <= Clock(steps[k])
    decreases k
  {
    if j < k {
      ChainAdvances(steps, j, k - 1);
      assert 0.0 <= Clock(steps[k]) - Clock(steps[k - 1]);
    }
  }

  // Conversely a chain that long, ending with the queue still paused and owned, does resume.
  lemma DwellIsEnough(steps: seq<Step>, j: nat, k: nat) returns (m: nat)
    requires Chain(steps, j, k) && Clock(steps[k]) - Clock(steps[j]) >= DWELL
    requires Run(steps[..k]).process.Up? && Run(steps[..k]).process.memory.Owned?
    requires steps[k].Tick? && steps[k].script.paused == Got(true) && steps[k].script.prepare.Saved?
    ensures |Run(steps[..k]).events| <= m < |Run(steps[..k + 1]).events| && IsResume(Run(steps[..k + 1]).events[m])
  {
    RunStep(steps, k);
    assert PrimaryPoll(steps, k) && PrimaryPoll(steps, j);
    OwnedThroughChain(steps, j, k, k);
    assert 0.0 <= Clock(steps[k]) - Clock(steps[k - 1]) <= MAX_GAP;
    m := |Run(steps[..k]).events| + 1;
  }

  // ---------------------------------------------------------------------
  // Exactly when a command is sent, and what becomes of it.
  // ---------------------------------------------------------------------

  // Step k sends the command.
  ghost predicate Sends(steps: seq<Step>, k: nat, command: Command)
    requires k < |steps|
  {
    SentFrom(|Run(steps[..k]).events|, Run(steps[..k + 1]).events, command)
  }

  ghost predicate SentFrom(start: nat, events: seq<Event>, command: Command) {
    exists m: nat :: SentBetween(start, events, m, command)
  }

  predicate SentBetween(start: nat, events: seq<Event>, m: nat, command: Command) {
    start <= m < |events| && SentAs(events[m], command)
  }

  predicate SentAs(e: Event, command: Command) {
    e.Sent? && e.command == command
  }

  // Step k is a poll of a live process that got these answers.
  ghost predicate Polls(steps: seq<Step>, k: nat, wan: Wan, paused: bool)
    requires k < |steps|
  {
    && steps[k].Tick? && Run(steps[..k]).process.Up?
    && steps[k].script.wan == Got(wan) && steps[k].script.paused == Got(paused)
  }

  // No pause is owned, or the owned one has been given up in the same poll.
  predicate FreeToPause(memory: State, relinquish: SaveResult) {
    memory == Idle || (memory == Owned && relinquish == Saved)
  }

  /**
    A pause is sent exactly by a poll that finds the link on its backup and the queue running,
    while the pause is not owned, or is given up first, and the intent has been made durable.
   */
  lemma PauseExactly(steps: seq<Step>, k: nat)
    requires k < |steps|
    ensures Sends(steps, k, Pause) <==>
            && Polls(steps, k, Backup, false)
            && FreeToPause(Run(steps[..k]).process.memory, steps[k].script.relinquish)
            && steps[k].script.prepare == Saved
  {
    hide Run;
    RunStep(steps, k);
    var before := Run(steps[..k]);
    if steps[k].Tick? && before.process.Up? {
      PauseOfPoll(before.file, before.process, steps[k].now, steps[k].script, before.events);
    } else {
      NothingSent(before, steps[k]);
    }
  }

  lemma NothingSent(sys: Sys, step: Step)
    requires !(step.Tick? && sys.process.Up?)
    ensures forall m :: |sys.events| <= m < |Next(sys, step).events| ==> !Next(sys, step).events[m].Sent?
  {
  }

  lemma PauseOfPoll(file: File, up: Process, now: real, s: Script, log: seq<Event>)
    requires up.Up?
    ensures var events := Ticked(file, up, now, s, log).events;
            SentFrom(|log|, events, Pause) <==>
              && s.wan == Got(Backup) && s.paused == Got(false) && s.prepare == Saved
              && FreeToPause(up.memory, s.relinquish)
  {
    hide Issued;
    if s.wan.Got? && s.paused.Got? {
      IssuesFrom(file, up, now, s, log, Pause);
      IssuesFrom(file, up, now, s, log, Resume);
      var events := Ticked(file, up, now, s, log).events;
      if s.wan.value == Backup && !s.paused.value && s.prepare == Saved && FreeToPause(up.memory, s.relinquish) {
        assert SentBetween(|log|, events, |log| + 1, Pause);
      }
    }
  }

  // A command that a poll decides on is sent, unless its intent is lost.
  lemma IssuesFrom(file: File, up: Process, now: real, s: Script, log: seq<Event>, command: Command)
    requires up.Up? && s.wan.Got? && s.paused.Got?
    ensures var events := log + [Polled(now, s.wan.value, s.paused.value)];
            var timed := Timed(up, now, s.wan.value);
            && IssuesSo(file, timed, command, s, events)
            && IssuesSo(Doc(Idle), timed.(memory := Idle), command, s, events)
  {
    hide Issued, IssuesSo, Timed;
    var events := log + [Polled(now, s.wan.value, s.paused.value)];
    var timed := Timed(up, now, s.wan.value);
    TimedIsUp(up, now, s.wan.value);
    SendsUnlessLost(file, timed, command, s, events);
    SendsUnlessLost(Doc(Idle), timed.(memory := Idle), command, s, events);
  }

  lemma TimedIsUp(up: Process, now: real, wan: Wan)
    requires up.Up?
    ensures Timed(up, now, wan).Up?
  {
  }

  lemma SendsUnlessLost(file: File, up: Process, command: Command, s: Script, events: seq<Event>)
    requires up.Up?
    ensures IssuesSo(file, up, command, s, events)
  {
  }

  predicate IssuesSo(file: File, up: Process, command: Command, s: Script, events: seq<Event>)
    requires up.Up?
  {
    var after := Issued(file, up, command, s, events);
    && events < after.events
    && (s.prepare.Saved? ==> SentAs(after.events[|events|], command))
    && (s.prepare.Lost? ==>
          && !after.events[|events|].Sent?
          && LostIntent(after, file, s.prepare, if command == Pause then PausePending else ResumePending))
    && forall m :: |events| < m < |after.events| ==> !after.events[m].Sent?
  }

  // Two minutes of answered primary polls of one process, none more than a minute after the
  // one before or back in time.
  ghost predicate Dwelt(steps: seq<Step>, k: nat)
    requires k < |steps|
  {
    exists j: nat :: DweltSince(steps, j, k)
  }

  ghost predicate DweltSince(steps: seq<Step>, j: nat, k: nat)
    requires k < |steps|
  {
    && j <= k && (forall i :: j <= i <= k ==> Polls(steps, i, Primary, true) || Polls(steps, i, Primary, false))
    && (forall i :: j < i <= k ==> 0.0 <= Clock(steps[i]) - Clock(steps[i - 1]) <= 60.0)
    && Clock(steps[k]) - Clock(steps[j]) >= 120.0
  }

  lemma DweltIsChain(steps: seq<Step>, j: nat, k: nat)
    requires k < |steps|
    ensures DweltSince(steps, j, k) <==> Chain(steps, j, k) && Clock(steps[k]) - Clock(steps[j]) >= 120.0
  {
    hide Run;
    if Chain(steps, j, k) && Clock(steps[k]) - Clock(steps[j]) >= 120.0 {
      forall i | j <= i <= k
        ensures Polls(steps, i, Primary, true) || Polls(steps, i, Primary, false)
      {
        assert PrimaryPoll(steps, i);
        assert steps[i].script.paused == Got(if steps[i].script.paused.value then true else false);
      }
    }
    if DweltSince(steps, j, k) {
      forall i | j <= i <= k
        ensures PrimaryPoll(steps, i)
      {
        assert Polls(steps, i, Primary, true) || Polls(steps, i, Primary, false);
      }
    }
  }

  /**
    A resume is sent exactly by a poll that finds the primary link up for two minutes and the
    queue paused, while the pause is owned and its spending has been made durable.
   */
  lemma ResumeExactly(steps: seq<Step>, k: nat)
    requires k < |steps|
    ensures Sends(steps, k, Resume) <==>
            && Polls(steps, k, Primary, true) && Run(steps[..k]).process.memory == Owned
            && Dwelt(steps, k) && steps[k].script.prepare == Saved
  {
    hide Run, Chain, DweltSince;
    if Sends(steps, k, Resume) {
      var m: nat :| SentBetween(|Run(steps[..k]).events|, Run(steps[..k + 1]).events, m, Resume);
      var j := ResumeEndsADwell(steps, k, m);
      DweltIsChain(steps, j, k);
      ResumeOfPoll(steps, k);
    }
    if Polls(steps, k, Primary, true) && Run(steps[..k]).process.memory == Owned
       && Dwelt(steps, k) && steps[k].script.prepare == Saved
    {
      var j: nat :| DweltSince(steps, j, k);
      DweltIsChain(steps, j, k);
      var m := DwellIsEnough(steps, j, k);
      assert SentBetween(|Run(steps[..k]).events|, Run(steps[..k + 1]).events, m, Resume);
    }
  }

  lemma ResumeOfPoll(steps: seq<Step>, k: nat)
    requires k < |steps| && Sends(steps, k, Resume)
    ensures Polls(steps, k, Primary, true) && Run(steps[..k]).process.memory == Owned
    ensures steps[k].script.prepare == Saved
  {
    hide Run;
    RunStep(steps, k);
    var before := Run(steps[..k]);
    if !(steps[k].Tick? && before.process.Up?) {
      NothingSent(before, steps[k]);
    }
  }

  // The process goes on with this memory and its dwell timer cleared.
  predicate GoesOn(process: Process, memory: State) {
    process == Up(memory, None, None)
  }

  /**
    What becomes of a command that was sent.  Accepted and confirmed, a pause leaves the journal
    owned and a resume leaves it idle, unless that last write is lost.  In every other case the
    journal stays pending, on the disk and in the memory of a process that lives on.
   */
  lemma CommandOutcome(steps: seq<Step>, k: nat, command: Command)
    requires k < |steps| && Sends(steps, k, command)
    ensures steps[k].Tick? && Settles(Run(steps[..k + 1]), steps[k].script, command)
  {
    hide Run, Settles;
    RunStep(steps, k);
    var before := Run(steps[..k]);
    if steps[k].Tick? && before.process.Up? {
      SentIsSettled(before.file, before.process, steps[k].now, steps[k].script, before.events, command);
    } else {
      NothingSent(before, steps[k]);
    }
  }

  predicate Settles(after: Sys, s: Script, command: Command) {
    var pending := if command == Pause then PausePending else ResumePending;
    var settled := if command == Pause then Owned else Idle;
    if s.command == Accepted && s.confirm == Got(command == Pause) then
      match s.finish
      case Saved => after.file == Doc(settled) && after.process.Up? && after.process.memory == settled
      case Lost(replaced) => after.file == Doc(if replaced then settled else pending) && after.process == Down
    else
      && after.file == Doc(pending)
      && if s.command == Cut || (s.command == Accepted && s.confirm == Died) then after.process == Down
         else GoesOn(after.process, pending)
  }

  lemma SentIsSettled(file: File, up: Process, now: real, s: Script, log: seq<Event>, command: Command)
    requires up.Up? && SentFrom(|log|, Ticked(file, up, now, s, log).events, command)
    ensures Settles(Ticked(file, up, now, s, log), s, command)
  {
    hide Settles, Issued;
    var m: nat :| SentBetween(|log|, Ticked(file, up, now, s, log).events, m, command);
    var timed := Timed(up, now, s.wan.value);
    var events := log + [Polled(now, s.wan.value, s.paused.value)];
    var freed := if up.memory.Owned? && !s.paused.value then timed.(memory := Idle) else timed;
    var kept := if up.memory.Owned? && !s.paused.value then Doc(Idle) else file;
    var issued := if s.wan.value.Backup? then Pause else Resume;
    assert Ticked(file, up, now, s, log) == Issued(kept, freed, issued, s, events);
    IssuedSettles(kept, freed, issued, command, s, events, m);
  }

  lemma IssuedSettles(file: File, up: Process, issued: Command, command: Command, s: Script, events: seq<Event>, m: nat)
    requires up.Up? && |events| > 0 && !events[|events| - 1].Sent?
    requires m >= |events| - 1
    requires SentBetween(0, Issued(file, up, issued, s, events).events, m, command)
    ensures issued == command && Settles(Issued(file, up, issued, s, events), s, command)
  {
  }

  // A poll that sent nothing gave up a pause whose queue was found running, or lost the write
  // of an intent, or left the journal alone.
  predicate Silent(file: File, memory: State, s: Script, after: Sys) {
    if s.wan.Got? && s.paused == Got(false) && memory == Owned then
      match s.relinquish
      case Saved =>
        if s.wan == Got(Backup) then LostIntent(after, Doc(Idle), s.prepare, PausePending)
        else after.file == Doc(Idle) && after.process.Up? && after.process.memory == Idle
      case Lost(replaced) =>
        after.process.Down? && after.file == if replaced then Doc(Idle) else file
    else
      || (after.file == file && (after.process.Up? ==> after.process.memory == memory))
      || LostIntent(after, file, s.prepare, if s.wan == Got(Backup) then PausePending else ResumePending)
  }

  predicate LostIntent(after: Sys, file: File, prepare: SaveResult, intent: State) {
    after.process.Down? && prepare.Lost? && after.file == if prepare.replaced then Doc(intent) else file
  }

  /**
    What becomes of the journal when a step sends nothing: it changes only by giving up a pause
    whose queue was found running, or by a write of an intent that was lost.
   */
  lemma SilentOutcome(steps: seq<Step>, k: nat)
    requires k < |steps| && !Sends(steps, k, Pause) && !Sends(steps, k, Resume) && !steps[k].Start?
    ensures var before, after := Run(steps[..k]), Run(steps[..k + 1]);
            && (steps[k].Kill? || before.process.Down? ==> after.file == before.file && after.process.Down?)
            && (steps[k].Tick? && before.process.Up? ==>
                  Silent(before.file, before.process.memory, steps[k].script, after))
  {
    hide Run, Silent;
    RunStep(steps, k);
    var before := Run(steps[..k]);
    if steps[k].Tick? && before.process.Up? {
      SilentPoll(before.file, before.process, steps[k].now, steps[k].script, before.events);
    }
  }

  lemma SilentPoll(file: File, up: Process, now: real, s: Script, log: seq<Event>)
    requires up.Up?
    requires var events := Ticked(file, up, now, s, log).events;
             !SentFrom(|log|, events, Pause) && !SentFrom(|log|, events, Resume)
    ensures Silent(file, up.memory, s, Ticked(file, up, now, s, log))
  {
    hide Issued;
    if s.wan.Got? && s.paused.Got? {
      IssuesFrom(file, up, now, s, log, Pause);
      IssuesFrom(file, up, now, s, log, Resume);
      var events := Ticked(file, up, now, s, log).events;
      if |events| > |log| + 1 {
        assert !SentBetween(|log|, events, |log| + 1, Pause) && !SentBetween(|log|, events, |log| + 1, Resume);
      }
    }
  }

  // A start takes up a readable journal as it is, begins with an idle one where there is none,
  // and refuses any other, without touching it.
  lemma StartOutcome(steps: seq<Step>, k: nat)
    requires k < |steps| && steps[k].Start?
    ensures var file, after := Run(steps[..k]).file, Run(steps[..k + 1]);
            && (file.Document? && file.version == 1 && file.state.Some? ==>
                  after.file == file && GoesOn(after.process, file.state.value))
            && (file.Document? && !(file.version == 1 && file.state.Some?) ==>
                  after.file == file && after.process == Down)
            && (file == Absent && steps[k].save == Saved ==> after.file == Doc(Idle) && GoesOn(after.process, Idle))
            && (file == Absent && steps[k].save.Lost? ==>
                  after.process == Down && after.file == if steps[k].save.replaced then Doc(Idle) else Absent)
  {
    hide Run;
    RunStep(steps, k);
  }
}
