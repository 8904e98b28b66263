/** The pause control file against a clock (`krakey/runtime/_pause_io.py`, `krakey/runtime/runtime.py`). */
module Pause {
  import opened Basics

  // ---- the protocol as a value -------------------------------------------

  /** The control file: absent, empty or not a number, or an epoch deadline. */
  datatype Control = Absent | Indefinite | Deadline(at: real)

  /** The last command that took effect. */
  datatype Command = NoCommand | Paused | PausedUntil(at: real) | Resumed

  datatype Protocol = Protocol(now: real, file: Control, paused: bool, last: Command)

  /** Commands and polls, each atomic, and the passing of time. `removed` and `readable` are the fates of
      the file operations a step performs. */
  datatype Event =
    | PauseForever
    | PauseFor(seconds: int)
    | Resume(removed: bool)
    | Poll(readable: bool, removed: bool)
    | Pass(duration: real)

  /** The specification: paused by an indefinite pause, or by a timed one whose deadline lies ahead. */
  predicate ShouldPause(last: Command, now: real) {
    match last
    case Paused => true
    case PausedUntil(at) => now < at
    case _ => false
  }

  /** `write_pause_file`. */
  function WrittenFile(now: real, seconds: Option<int>): Control {
    match seconds
    case None => Indefinite
    case Some(n) => Deadline(now + n as real)
  }

  /** The flag and the file after one `poll_pause_file`. */
  function Polled(now: real, file: Control, readable: bool, removed: bool): (bool, Control) {
    if file == Absent || !readable then (false, file)
    else
      match file
      case Indefinite => (true, file)
      case Deadline(at) =>
        if now >= at then (false, if removed then Absent else file) else (true, file)
  }

  function Step(p: Protocol, e: Event): Protocol {
    match e
    case PauseForever => p.(file := WrittenFile(p.now, None), last := Paused)
    case PauseFor(n) => p.(file := WrittenFile(p.now, Some(n)), last := PausedUntil(p.now + n as real))
    // a failing unlink is swallowed: the old command stays in force
    case Resume(removed) => if removed || p.file == Absent then p.(file := Absent, last := Resumed) else p
    case Poll(readable, removed) =>
      var (flag, file) := Polled(p.now, p.file, readable, removed);
      p.(paused := flag, file := file)
    case Pass(d) => if d >= 0.0 then p.(now := p.now + d) else p
  }

  function Run(p: Protocol, es: seq<Event>): Protocol
    decreases |es|
  {
    if es == [] then p else Step(Run(p, es[..|es| - 1]), es[|es| - 1])
  }

  function Fresh(now: real): Protocol {
    Protocol(now, Absent, false, NoCommand)
  }

  /** The file still says what the last command asked for, unless that was a timed pause that is over and
      whose file a poll has removed. */
  predicate Faithful(p: Protocol) {
    match p.last
    case NoCommand => p.file == Absent
    case Resumed => p.file == Absent
    case Paused => p.file == Indefinite
    case PausedUntil(at) => p.file == Deadline(at) || (p.file == Absent && p.now >= at)
  }

  lemma {:induction false} RunFaithful(start: real, es: seq<Event>)
    ensures Faithful(Run(Fresh(start), es))
    decreases |es|
  {
    if es != [] {
      RunFaithful(start, es[..|es| - 1]);
    }
  }

  /** After any run, a poll that can read the file sets the flag to what the last command means now; a poll
      that cannot read it reads as not paused. */
  lemma PollMeetsSpec(start: real, es: seq<Event>, readable: bool, removed: bool)
    ensures var p := Run(Fresh(start), es);
      var q := Step(p, Poll(readable, removed));
      && (readable || p.file == Absent ==> q.paused == ShouldPause(p.last, p.now))
      && (!readable ==> !q.paused)
      && Faithful(q)
  {
    RunFaithful(start, es);
  }

  predicate NotAPause(e: Event) {
    !e.PauseForever? && !e.PauseFor?
  }

  /** A timed pause that has expired stays expired: until a new pause, no poll pauses again. */
  lemma {:induction false} ExpiredStaysExpired(p: Protocol, es: seq<Event>, readable: bool, removed: bool)
    requires Faithful(p) && !ShouldPause(p.last, p.now)
    requires forall i :: 0 <= i < |es| ==> NotAPause(es[i])
    ensures Faithful(Run(p, es)) && !ShouldPause(Run(p, es).last, Run(p, es).now)
    ensures !Step(Run(p, es), Poll(readable, removed)).paused
    decreases |es|
  {
    if es != [] {
      ExpiredStaysExpired(p, es[..|es| - 1], readable, removed);
    }
  }

  /** A resume whose unlink fails changes nothing: the next poll still sees the old command. */
  lemma ResumeNeedsTheUnlink(start: real, es: seq<Event>, removed: bool)
    ensures var p := Run(Fresh(start), es);
      var q := Step(Step(p, Resume(removed)), Poll(true, true));
      q.paused <==> !removed && ShouldPause(p.last, p.now)
  {
    RunFaithful(start, es);
  }

  // ---- the source's objects ----------------------------------------------

  class PauseFile {
    var content: Control

    constructor ()
      ensures content == Absent
    {
      content := Absent;
    }

    method Write(now: real, seconds: Option<int>)
      modifies this
      ensures content == WrittenFile(now, seconds)
    {
      content := if seconds == None then Indefinite else Deadline(now + seconds.value as real);
    }

    /** Best effort: a failure to unlink is swallowed. */
    method Clear(removed: bool)
      modifies this
      ensures content == if removed then Absent else old(content)
    {
      if removed {
        content := Absent;
      }
    }
  }

  class PauseControl {
    var file: PauseFile?
    var paused: bool
    ghost var last: Command

    ghost function View(now: real): Protocol
      reads this, file
      requires file != null
    {
      Protocol(now, file.content, paused, last)
    }

    constructor ()
      ensures file == null && !paused && last == NoCommand
    {
      file, paused, last := null, false, NoCommand;
    }

    /** Ceasing to watch a file also ceases to be paused. */
    method SetPauseFile(path: PauseFile?)
      modifies `file, `paused
      ensures file == path && paused == (path != null && old(paused))
    {
      file := path;
      if path == null {
        paused := false;
      }
    }

    method PollPauseFile(now: real, readable: bool, removed: bool)
      modifies `paused, file
      ensures file == null ==> paused == old(paused)
      ensures file != null ==> View(now) == Step(old(View(now)), Poll(readable, removed))
    {
      if file == null {
        return;
      }
      if file.content == Absent || !readable {
        paused := false;
        return;
      }
      match file.content {
        case Indefinite =>
          paused := true;
        case Deadline(at) =>
          if now >= at {
            paused := false;
            file.Clear(removed);
          } else {
            paused := true;
          }
      }
    }

    /** Writes the file and polls at once; a pause of zero or fewer seconds is already over. */
    method RequestPause(now: real, seconds: Option<int>, readable: bool, removed: bool) returns (applied: bool)
      modifies this, file
      ensures applied == (file != null) && file == old(file)
      ensures file == null ==> paused == old(paused)
      ensures file != null ==>
                View(now) == Step(Step(old(View(now)), if seconds
                    == None then PauseForever else PauseFor(seconds.value)),
                                  Poll(readable, removed))
    {
      if file == null {
        return false;
      }
      file.Write(now, seconds);
      last := if seconds == None then Paused else PausedUntil(now + seconds.value as real);
      PollPauseFile(now, readable, removed);
      return true;
    }

    method RequestResume(now: real, removed: bool, readable: bool) returns (applied: bool)
      modifies this, file
      ensures applied == (file != null) && file == old(file)
      ensures file == null ==> paused == old(paused)
      ensures file != null ==>
                View(now) == Step(Step(old(View(now)), Resume(removed)), Poll(readable, removed))
    {
      if file == null {
        return false;
      }
      last := if removed || file.content == Absent then Resumed else last;
      file.Clear(removed);
      PollPauseFile(now, readable, removed);
      return true;
    }
  }
}
