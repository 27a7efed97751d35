/**
 The engine-warning capture window (`output/engine.ts:371-463`): `console.error` is swapped for the
 length of one synchronous engine call, and what was written is relayed once the swap is gone.
 */
module Capture {
  import opened Wrappers
  import opened Channel

  type CallName = nat

  datatype Level = NoteLevel | WarningLevel | UnknownLevel

  /** One captured write: its level, and whether its first line is blank. */
  datatype Write = Write(text: Text, level: Level, blank: bool)

  /** `engineNote`: an unknown prefix is a warning, and a blank title gets a standing one. */
  function EngineNote(w: Write): (note: Note)
    ensures Valid(note)
  {
    Note(if w.level.NoteLevel? then EngineNoteCode else EngineWarning, w.text, false, false)
  }

  function EngineNotes(writes: seq<Write>): (r: seq<Note>)
    ensures |r| == |writes| && forall i | 0 <= i < |writes| :: r[i] == EngineNote(writes[i])
  {
    seq(|writes|, i requires 0 <= i < |writes| => EngineNote(writes[i]))
  }

  datatype Ending = Returns(value: nat, thenable: bool) | Throws(error: nat) | ThenThrows(error: nat)

  /** What an engine call does: writes, attempts at a capture of its own, and reassignments of `console.error`. */
  datatype Action =
    | Writes(w: Write)
    | Captures(call: CallName, body: Body, caught: bool)
    | Reassigns(handler: nat)

  datatype Body = Body(actions: seq<Action>, ending: Ending)

  datatype Outcome =
    | Value(value: nat)
    | EngineThrew(error: nat)
    | NotSynchronous(call: CallName)
    | Reentrant(call: CallName, active: CallName)

  // ---------- what a body does in a window ----------

  /** The writes that go to the stub: until an uncaught refusal, or a reassignment. */
  function Seen(actions: seq<Action>, n: nat): seq<Write>
    requires n <= |actions|
  {
    if n == 0 || Left(actions, n - 1) then if n == 0 then [] else Seen(actions, n - 1)
    else Seen(actions, n - 1) + if actions[n - 1].Writes? && !Reassigned(actions, n - 1) then [actions[n - 1].w] else []
  }

  /** An inner capture among the first `n` actions was refused and not caught, so the body was left. */
  predicate Left(actions: seq<Action>, n: nat)
    requires n <= |actions|
  {
    exists i :: 0 <= i < n && actions[i].Captures? && !actions[i].caught
  }

  predicate Reassigned(actions: seq<Action>, n: nat)
    requires n <= |actions|
  {
    exists i :: 0 <= i < n && actions[i].Reassigns?
  }

  function Captured(body: Body): seq<Write> {
    Seen(body.actions, |body.actions|)
  }

  /** The first refusal the body does not catch. */
  function FirstLeft(actions: seq<Action>, n: nat): (r: Option<CallName>)
    requires n <= |actions|
    ensures r.Some? <==> Left(actions, n)
  {
    if n == 0 then None
    else if FirstLeft(actions, n - 1).Some? then FirstLeft(actions, n - 1)
    else if actions[n - 1].Captures? && !actions[n - 1].caught then Some(actions[n - 1].call)
    else None
  }

  function OutcomeOf(active: Option<CallName>, call: CallName, body: Body): Outcome {
    if active.Some? then Reentrant(call, active.value)
    else match FirstLeft(body.actions, |body.actions|)
      case Some(inner) => Reentrant(inner, call)
      case None =>
        match body.ending
        case Returns(v, thenable) => if thenable then NotSynchronous(call) else Value(v)
        case Throws(e) => EngineThrew(e)
        case ThenThrows(e) => EngineThrew(e)
  }

  /** The number of actions, nested ones included. */
  function Size(actions: seq<Action>): nat
    decreases actions
  {
    if actions == [] then 0 else Size(actions[..|actions| - 1]) + ActionSize(actions[|actions| - 1])
  }

  function ActionSize(a: Action): nat
    decreases a
  {
    match a
    case Captures(_, body, _) => 1 + BodySize(body)
    case _ => 1
  }

  function BodySize(body: Body): nat
    decreases body
  {
    Size(body.actions)
  }

  lemma {:induction false} InnerIsSmaller(actions: seq<Action>, i: nat)
    requires i < |actions| && actions[i].Captures?
    ensures BodySize(actions[i].body) < Size(actions)
    decreases |actions|
  {
    if i < |actions| - 1 { InnerIsSmaller(actions[..|actions| - 1], i); }
  }

  // ---------- the module itself ----------

  /** The buffer of one window. */
  class Window {
    var writes: seq<Write>

    constructor ()
      ensures writes == []
    {
      writes := [];
    }
  }

  /** The value of `console.error`: some function of the host's, or a window's stub. */
  datatype Handler = Host(id: nat) | StubOf(window: Window)

  /** `console`, and the module's one mutable binding. */
  class Engine {
    var consoleError: Handler
    var activeCall: Option<CallName>
    /** What reached the host's own handlers. */
    var hostWrites: seq<(nat, Write)>

    constructor (handler: nat)
      ensures consoleError == Host(handler) && activeCall.None? && hostWrites == []
    {
      consoleError, activeCall, hostWrites := Host(handler), None, [];
    }
  }

  /** One call of `console.error` inside a body. */
  method CallConsole(engine: Engine, window: Window, w: Write)
    requires engine.consoleError.StubOf? ==> engine.consoleError.window == window
    modifies engine`hostWrites, window
    ensures window.writes == if engine.consoleError.StubOf? then old(window.writes) + [w] else old(window.writes)
    ensures engine.consoleError.StubOf? ==> engine.hostWrites == old(engine.hostWrites)
  {
    match engine.consoleError {
      case StubOf(_) => window.writes := window.writes + [w];
      case Host(id) => engine.hostWrites := engine.hostWrites + [(id, w)];
    }
  }

  /** The engine call runs in the open window of `call`; the answer is the refusal that left it, if one did. */
  method RunActions(engine: Engine, channel: OutputChannel, window: Window, call: CallName, actions: seq<Action>)
    returns (left: Option<CallName>)
    requires engine.activeCall == Some(call) && engine.consoleError == StubOf(window) && window.writes == []
    modifies engine, channel, window
    ensures engine.activeCall == Some(call)
    ensures left == FirstLeft(actions, |actions|)
    ensures window.writes == Seen(actions, |actions|)
    ensures !Reassigned(actions, |actions|) ==> engine.hostWrites == old(engine.hostWrites)
    ensures channel.Value() == old(channel.Value()) && channel.written == old(channel.written)
    decreases Size(actions), 0
  {
    left := None;
    for i := 0 to |actions|
      invariant engine.activeCall == Some(call)
      invariant engine.consoleError == StubOf(window) <==> !Reassigned(actions, i)
      invariant engine.consoleError.StubOf? ==> engine.consoleError.window == window
      invariant !Left(actions, i)
      invariant window.writes == Seen(actions, i)
      invariant !Reassigned(actions, i) ==> engine.hostWrites == old(engine.hostWrites)
      invariant channel.Value() == old(channel.Value()) && channel.written == old(channel.written)
    {
      match actions[i] {
        case Writes(w) => CallConsole(engine, window, w);
        case Reassigns(handler) => engine.consoleError := Host(handler);
        case Captures(inner, body, caught) =>
          InnerIsSmaller(actions, i);
          var outcome := CaptureEngineWarnings(engine, channel, inner, body, false);
          if !caught {
            SeenAfterLeaving(actions, i + 1);
            return Some(inner);
          }
      }
    }
  }

  lemma {:induction false} SeenAfterLeaving(actions: seq<Action>, n: nat)
    requires n <= |actions| && Left(actions, n)
    ensures Seen(actions, |actions|) == Seen(actions, n)
    ensures FirstLeft(actions, |actions|) == FirstLeft(actions, n)
    decreases |actions| - n
  {
    if n < |actions| { SeenAfterLeaving(actions, n + 1); }
  }

  /** `flush`: drains the buffer onto the channel, once the window is closed. */
  method Flush(engine: Engine, channel: OutputChannel, window: Window, silenced: bool)
    requires engine.activeCall.None?
    modifies channel, window
    ensures channel.Value() == AppendedAll(old(channel.Value()), EngineNotes(old(window.writes)))
    ensures window.writes == []
  {
    var writes := window.writes;
    window.writes := [];
    var notes := EngineNotes(writes);
    assert notes[..0] == [];
    for i := 0 to |writes|
      invariant window.writes == []
      invariant channel.Value() == AppendedAll(old(channel.Value()), notes[..i])
    {
      assert notes[..i + 1][..i] == notes[..i];
      var sinkThrows: bool := *;
      var refused := channel.Degraded(EngineNote(writes[i]), silenced, sinkThrows);
    }
    assert notes[..|writes|] == notes;
  }

  /** `runCaptureWindow`: whatever the body does, the saved function and the guard are put back. */
  method RunCaptureWindow(engine: Engine, channel: OutputChannel, window: Window, call: CallName, body: Body)
    returns (outcome: Outcome)
    requires engine.activeCall.None? && window.writes == []
    modifies engine, channel, window
    ensures engine.consoleError == old(engine.consoleError) && engine.activeCall.None?
    ensures outcome == OutcomeOf(None, call, body)
    ensures window.writes == Captured(body)
    ensures !Reassigned(body.actions, |body.actions|) ==> engine.hostWrites == old(engine.hostWrites)
    ensures channel.Value() == old(channel.Value()) && channel.written == old(channel.written)
    decreases BodySize(body), 1
  {
    var saved := engine.consoleError;
    engine.activeCall := Some(call);
    engine.consoleError := StubOf(window);
    var left := RunActions(engine, channel, window, call, body.actions);
    engine.consoleError := saved;
    engine.activeCall := None;
    match left {
      case Some(inner) => outcome := Reentrant(inner, call);
      case None =>
        match body.ending {
          case Returns(v, thenable) => outcome := if thenable then NotSynchronous(call) else Value(v);
          case Throws(e) => outcome := EngineThrew(e);
          case ThenThrows(e) => outcome := EngineThrew(e);
        }
    }
  }

  /**
   `captureEngineWarnings`, for every engine call body: `console.error` is the identical saved value
   afterwards and the guard is as it was; a refused inner call changes nothing at all; and otherwise
   each write in the window reaches the channel exactly once, in order, and none reaches the host's
   own function while the body leaves `console.error` alone.
   */
  method CaptureEngineWarnings(engine: Engine, channel: OutputChannel, call: CallName, body: Body, silenced: bool)
    returns (outcome: Outcome)
    modifies engine, channel
    ensures engine.consoleError == old(engine.consoleError) && engine.activeCall == old(engine.activeCall)
    ensures outcome == OutcomeOf(old(engine.activeCall), call, body)
    ensures !Reassigned(body.actions, |body.actions|) ==> engine.hostWrites == old(engine.hostWrites)
    ensures old(engine.activeCall).Some? ==>
              channel.Value() == old(channel.Value()) && channel.written == old(channel.written)
              && engine.hostWrites == old(engine.hostWrites)
    ensures old(engine.activeCall).None? ==>
              channel.Value() == AppendedAll(old(channel.Value()), EngineNotes(Captured(body)))
    decreases BodySize(body), 2
  {
    if engine.activeCall.Some? {
      return Reentrant(call, engine.activeCall.value);
    }
    var window := new Window();
    outcome := RunCaptureWindow(engine, channel, window, call, body);
    Flush(engine, channel, window, silenced);
  }

  /** All the writes the windows of an operation's engine calls see. */
  function AllCaptured(calls: seq<(CallName, Body)>, n: nat): seq<Write>
    requires n <= |calls|
  {
    if n == 0 then [] else AllCaptured(calls, n - 1) + Captured(calls[n - 1].1)
  }

  /**
   An operation's engine calls on one fresh channel, each under its own silence flag: what is recorded
   is the first hundred writes in order and, if there were more, one note saying how many.
   */
  method RunEngineCalls(engine: Engine, calls: seq<(CallName, Body)>, silenced: seq<bool>) returns (channel: OutputChannel)
    requires engine.activeCall.None? && |silenced| == |calls|
    modifies engine
    ensures RecordedIn(channel.Value()) == Expected(EngineNotes(AllCaptured(calls, |calls|)))
    ensures engine.consoleError == old(engine.consoleError) && engine.activeCall.None?
  {
    channel := new OutputChannel();
    for i := 0 to |calls|
      invariant engine.consoleError == old(engine.consoleError) && engine.activeCall.None?
      invariant channel.Value() == AppendedAll(Empty, EngineNotes(AllCaptured(calls, i)))
    {
      var outcome := CaptureEngineWarnings(engine, channel, calls[i].0, calls[i].1, silenced[i]);
      var before, more := AllCaptured(calls, i), Captured(calls[i].1);
      assert EngineNotes(before + more) == EngineNotes(before) + EngineNotes(more);
      AppendedInTwo(Empty, EngineNotes(before), EngineNotes(more));
    }
    RecordedIsExpected(EngineNotes(AllCaptured(calls, |calls|)));
  }
}
