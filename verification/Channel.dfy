/** The plugin's output channel (`output/channel.ts`): record, then write; at most a hundred notes, and a count of the rest. */
module Channel {

  type Text = nat

  datatype Code = EngineWarning | EngineNoteCode | OtherCode

  /** A note as the channel checks it: `blank` fields are the ones it refuses. */
  datatype Note = Note(code: Code, text: Text, summaryBlank: bool, remedyBlank: bool)

  datatype Entry = Recorded(note: Note) | Truncated(count: nat)

  const CAP: nat := 100

  datatype State = State(appended: seq<Note>, suppressed: nat)

  const Empty: State := State([], 0)

  predicate Valid(note: Note) { !note.summaryBlank && !note.remedyBlank }

  /** What `degraded` makes of a valid note. */
  function Appended(s: State, note: Note): State {
    if |s.appended| >= CAP then s.(suppressed := s.suppressed + 1) else s.(appended := s.appended + [note])
  }

  function AppendedAll(s: State, notes: seq<Note>): State {
    if notes == [] then s else Appended(AppendedAll(s, notes[..|notes| - 1]), notes[|notes| - 1])
  }

  /** The `recorded` getter. */
  function RecordedIn(s: State): seq<Entry> {
    seq(|s.appended|, i requires 0 <= i < |s.appended| => Recorded(s.appended[i]))
    + if s.suppressed == 0 then [] else [Truncated(s.suppressed)]
  }

  /** After n notes: the first hundred in order, and beyond that one statement of how many more. */
  function Expected(notes: seq<Note>): seq<Entry> {
    var kept := if |notes| <= CAP then |notes| else CAP;
    seq(kept, i requires 0 <= i < kept => Recorded(notes[i]))
    + if |notes| <= CAP then [] else [Truncated(|notes| - CAP)]
  }

  lemma {:induction false} StateAfter(notes: seq<Note>)
    ensures var s := AppendedAll(Empty, notes);
            && s.appended == notes[..if |notes| <= CAP then |notes| else CAP]
            && s.suppressed == if |notes| <= CAP then 0 else |notes| - CAP
  {
    if notes != [] {
      StateAfter(notes[..|notes| - 1]);
      assert notes == notes[..|notes| - 1] + [notes[|notes| - 1]];
    }
  }

  lemma RecordedIsExpected(notes: seq<Note>)
    ensures RecordedIn(AppendedAll(Empty, notes)) == Expected(notes)
  {
    StateAfter(notes);
  }

  lemma {:induction false} AppendedInTwo(s: State, a: seq<Note>, b: seq<Note>)
    ensures AppendedAll(s, a + b) == AppendedAll(AppendedAll(s, a), b)
    decreases |b|
  {
    if b == [] {
      assert a + b == a;
    } else {
      assert (a + b)[..|a + b| - 1] == a + b[..|b| - 1];
      AppendedInTwo(s, a, b[..|b| - 1]);
    }
  }

  class OutputChannel {
    var appended: seq<Note>
    var suppressed: nat
    /** What the host's sink received. */
    var written: seq<Note>

    function Value(): State
      reads this
    {
      State(appended, suppressed)
    }

    constructor ()
      ensures Value() == Empty && written == []
    {
      appended, suppressed, written := [], 0, [];
    }

    /** The one write path: silence drops the write, and a sink that throws is swallowed. */
    method Emit(note: Note, silenced: bool, sinkThrows: bool)
      modifies this`written
      ensures written == if silenced || sinkThrows then old(written) else old(written) + [note]
    {
      if !silenced && !sinkThrows { written := written + [note]; }
    }

    /** `degraded`: a malformed note is refused before anything; the record never depends on the write. */
    method Degraded(note: Note, silenced: bool, sinkThrows: bool) returns (refused: bool)
      modifies this
      ensures refused == !Valid(note)
      ensures Value() == if refused then old(Value()) else Appended(old(Value()), note)
      ensures written == if refused || |old(appended)| >= CAP || silenced || sinkThrows then old(written) else old(written) + [note]
    {
      if note.summaryBlank || note.remedyBlank { return true; }
      refused := false;
      if |appended| >= CAP {
        suppressed := suppressed + 1;
        return;
      }
      appended := appended + [note];
      Emit(note, silenced, sinkThrows);
    }
  }
}
