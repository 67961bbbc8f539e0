/** `do_workout` of src/workout.rs as an event trace: the beeps it plays, the
    sleeps it takes (in milliseconds) and the lines it reads from the
    operator, in order, together with how the playback ends. */
module Player {
  import opened Basics
  import opened WorkoutModel

  /** One observable effect of the playback. */
  datatype Event = Beep(level: BeepLevel) | Sleep(ms: nat) | ReadLine

  /** Why the playback stops early. `LengthOverflow` stands for the panic of
      `Workout::length` when the opening banner prints it; `SectionIndexPanic`
      for indexing the sections with a set number past the end. */
  datatype PlayError = LengthOverflow | SectionIndexPanic | StartOutOfBounds

  datatype Outcome = Completed | Failed(error: PlayError)

  /** A start position: 0-based set, repetition and exercise. */
  type Start = (U16, U16, U16)

  const PreSectionWait: nat := 2
  const RestEndWarning: nat := 5
  const SectionEntryWait: nat := 6

  function Ms(seconds: nat): nat
  {
    1000 * seconds
  }

  const Opening: seq<Event> := [Beep(High), Beep(Mid), Beep(Low)]
  const Closing: seq<Event> := [Sleep(Ms(2)), Beep(Low), Beep(Mid), Beep(High), Sleep(Ms(2))]

  // ---------------------------------------------------------------------------
  // What each part of the playback emits

  /** A rest of `d` seconds: when more than the 5 s warning is left, sleep
      until 5 s remain, beep Mid, and sleep the last 5 s; otherwise just sleep. */
  function WarnedRest(d: nat): seq<Event>
  {
    if d > RestEndWarning then [Sleep(Ms(d - RestEndWarning)), Beep(Mid), Sleep(Ms(RestEndWarning))]
    else [Sleep(Ms(d))]
  }

  /** The events of one element. A timed exercise is cued High at its start
      and Low at its end, with a Mid beep halfway when asked for; a rep-based
      exercise is cued High and waits for the operator. */
  function ElementTrace(p: WorkoutSetElement): seq<Event>
  {
    match p
    case Excercise(_, Time(d, true)) => [Beep(High), Sleep(500 * d), Beep(Mid), Sleep(500 * d), Beep(Low)]
    case Excercise(_, Time(d, false)) => [Beep(High), Sleep(Ms(d)), Beep(Low)]
    case Excercise(_, Reps(_)) => [Beep(High), ReadLine]
    case Rest(d) => WarnedRest(d)
  }

  /** The events of a run of elements, one after the other. */
  function PartsTrace(ps: seq<WorkoutSetElement>): seq<Event>
  {
    if ps == [] then [] else PartsTrace(ps[..|ps| - 1]) + ElementTrace(ps[|ps| - 1])
  }

  /** The set rest after repetition `rep`: only between two repetitions, and
      2 s shorter (the wait before each repetition makes up for it). */
  function SetRestTrace(s: WorkoutSet, rep: nat): seq<Event>
  {
    if rep + 1 < s.reps && s.setRest.Some? then WarnedRest(SatSub(s.setRest.value, PreSectionWait)) else []
  }

  /** One repetition of a section from element `startPart` on. */
  function RepTrace(s: WorkoutSet, rep: nat, startPart: nat): seq<Event>
    requires startPart <= |s.parts|
  {
    [Beep(Mid), Beep(Mid), Sleep(Ms(PreSectionWait))] + PartsTrace(s.parts[startPart..]) + SetRestTrace(s, rep)
  }

  /** Repetitions `lo` up to (not including) `hi`, each in full. */
  function RepsFrom(s: WorkoutSet, lo: nat, hi: nat): seq<Event>
    decreases hi
  {
    if hi <= lo then [] else RepsFrom(s, lo, hi - 1) + RepTrace(s, hi - 1, 0)
  }

  /** The number of `Excercise` elements, rests not counted. */
  function CountExercises(ps: seq<WorkoutSetElement>): nat
  {
    if ps == [] then 0 else (if ps[0].Excercise? then 1 else 0) + CountExercises(ps[1..])
  }

  /** Index of the `(n+1)`-th `Excercise` element at or after index `i`. */
  function NthExerciseFrom(ps: seq<WorkoutSetElement>, i: nat, n: nat): (r: Option<nat>)
    requires i <= |ps|
    ensures r.Some? ==> i <= r.value < |ps|
    decreases |ps| - i
  {
    if i == |ps| then None
    else if ps[i].Excercise? then (if n == 0 then Some(i) else NthExerciseFrom(ps, i + 1, n - 1))
    else NthExerciseFrom(ps, i + 1, n)
  }

  /** Index of the `(n+1)`-th `Excercise` element, where playback resumes. */
  function NthExercise(ps: seq<WorkoutSetElement>, n: nat): (r: Option<nat>)
    ensures r.Some? ==> r.value < |ps|
  {
    NthExerciseFrom(ps, 0, n)
  }

  /** How far the playback has got: the events so far, whether it has
      stopped, and whether the start position is still to be applied. */
  datatype Progress = Progress(events: seq<Event>, failed: Option<PlayError>, first: bool)

  /** One section. The first one played waits 6 s, starts at the requested
      repetition and, in it, at the requested exercise; the start position is
      applied at the first repetition actually played. */
  function SectionPlay(s: WorkoutSet, first: bool, from: Start): Progress
  {
    if !first then Progress(RepsFrom(s, 0, s.reps), None, false)
    else
      var entry := [Sleep(Ms(SectionEntryWait))];
      if from.1 >= s.reps then Progress(entry, None, true)
      else
        match NthExercise(s.parts, from.2)
        case None => Progress(entry + [Beep(Mid), Beep(Mid), Sleep(Ms(PreSectionWait))], Some(StartOutOfBounds), false)
        case Some(k) => Progress(entry + RepTrace(s, from.1, k) + RepsFrom(s, from.1 + 1, s.reps), None, false)
  }

  /** The sections in order, until one fails. */
  function SectionsPlay(secs: seq<WorkoutSet>, from: Start): Progress
  {
    if secs == [] then Progress([], None, true)
    else
      var p := SectionsPlay(secs[..|secs| - 1], from);
      if p.failed.Some? then p
      else
        var q := SectionPlay(secs[|secs| - 1], p.first, from);
        Progress(p.events + q.events, q.failed, q.first)
  }

  /** `do_workout`: the trace and the outcome. The bounds check at the start
      compares with `>` and runs only for a start other than (0, 0, 0), after
      the set has already been indexed. */
  function PlaySpec(w: Workout, from: Start): (seq<Event>, Outcome)
  {
    var secs := w.sections;
    if Length(w).None? then ([], Failed(LengthOverflow))
    else if from != (0, 0, 0) && from.0 >= |secs| then (Opening, Failed(SectionIndexPanic))
    else if from != (0, 0, 0) && (from.0 > |secs| || from.1 > secs[from.0].reps || from.2 > CountExercises(secs[from.0].parts))
    then (Opening, Failed(StartOutOfBounds))
    else
      var p := SectionsPlay(secs[from.0..], from);
      if p.failed.Some? then (Opening + p.events, Failed(p.failed.value))
      else (Opening + p.events + Closing, Completed)
  }

  // ---------------------------------------------------------------------------
  // Lemmas the methods below rely on

  /** One more section, once the ones before it have been played. */
  lemma SectionsPlayStep(secs: seq<WorkoutSet>, i: nat, from: Start, events: seq<Event>, first: bool, q: Progress)
    requires i < |secs|
    requires SectionsPlay(secs[..i], from) == Progress(events, None, first)
    requires q == SectionPlay(secs[i], first, from)
    ensures SectionsPlay(secs[..i + 1], from) == Progress(events + q.events, q.failed, q.first)
  {
    assert secs[..i + 1][..i] == secs[..i];
  }

  /** Once a section fails, the sections after it are not played. */
  lemma {:induction false} SectionsPlayStops(secs: seq<WorkoutSet>, i: nat, from: Start)
    requires i <= |secs| && SectionsPlay(secs[..i], from).failed.Some?
    ensures SectionsPlay(secs, from) == SectionsPlay(secs[..i], from)
    decreases |secs|
  {
    if i == |secs| {
      assert secs[..i] == secs;
    } else {
      var init := secs[..|secs| - 1];
      assert init[..i] == secs[..i];
      SectionsPlayStops(init, i, from);
    }
  }

  // ---------------------------------------------------------------------------
  // The sequencer as `do_workout` runs it
  //
  // `RestWithWarning`, `PlayElement` and `PlayRepetition` are the loop bodies
  // of `do_workout` written out as statements. Each is proved equal to the
  // function that specifies it, so the loops that call them reason about one
  // call at a time.

  /** A rest with its 5 s warning. */
  method RestWithWarning(d: nat) returns (events: seq<Event>)
    ensures events == WarnedRest(d)
  {
    if d > RestEndWarning {
      var dFirst := d - RestEndWarning;
      events := [Sleep(Ms(dFirst)), Beep(Mid), Sleep(Ms(RestEndWarning))];
    } else {
      events := [Sleep(Ms(d))];
    }
  }

  /** The body of the element loop. */
  method PlayElement(p: WorkoutSetElement) returns (events: seq<Event>)
    ensures events == ElementTrace(p)
  {
    match p
    case Excercise(_, amount) =>
      events := [Beep(High)];
      match amount {
        case Time(d, midbeep) =>
          if midbeep {
            var half := 500 * d;
            events := events + [Sleep(half), Beep(Mid), Sleep(half)];
          } else {
            events := events + [Sleep(Ms(d))];
          }
          events := events + [Beep(Low)];
        case Reps(_) =>
          events := events + [ReadLine];
      }
    case Rest(d) =>
      events := RestWithWarning(d);
  }

  /** The element loop: elements `start` to the end. */
  method PlayParts(ps: seq<WorkoutSetElement>, start: nat) returns (events: seq<Event>)
    requires start <= |ps|
    ensures events == PartsTrace(ps[start..])
  {
    events := [];
    var pi := start;
    while pi < |ps|
      invariant start <= pi <= |ps|
      invariant events == PartsTrace(ps[start..pi])
      decreases |ps| - pi
    {
      var e := PlayElement(ps[pi]);
      assert ps[start..pi + 1][..pi - start] == ps[start..pi];
      events := events + e;
      pi := pi + 1;
    }
    assert ps[start..pi] == ps[start..];
  }

  /** The `find_map` with the `exes_left` countdown: where playback resumes
      in the first repetition played. */
  method FindStart(ps: seq<WorkoutSetElement>, n: U16) returns (r: Option<nat>)
    ensures r == NthExercise(ps, n)
  {
    var exesLeft: nat := n + 1;
    var i := 0;
    while i < |ps|
      invariant i <= |ps| && exesLeft >= 1
      invariant NthExercise(ps, n) == NthExerciseFrom(ps, i, exesLeft - 1)
      decreases |ps| - i
    {
      if ps[i].Excercise? {
        exesLeft := exesLeft - 1;
        if exesLeft == 0 {
          return Some(i);
        }
      }
      i := i + 1;
    }
    return None;
  }

  /** One repetition from element `partStart` on: the two Mid beeps and the
      wait, the elements, and the set rest when another repetition follows. */
  method PlayRepetition(s: WorkoutSet, rep: nat, partStart: nat) returns (events: seq<Event>)
    requires partStart <= |s.parts|
    ensures events == RepTrace(s, rep, partStart)
  {
    events := [Beep(Mid), Beep(Mid), Sleep(Ms(PreSectionWait))];
    var partsEvents := PlayParts(s.parts, partStart);
    events := events + partsEvents;
    if rep < s.reps - 1 && s.setRest.Some? {
      var rest := RestWithWarning(SatSub(s.setRest.value, PreSectionWait));
      events := events + rest;
    }
  }

  /** What the repetition loop of a section has emitted once repetition `rep`
      is next: the entry wait when the section is the first played, then
      the repetitions done, the first of them from element `k`. */
  ghost function SectionSoFar(s: WorkoutSet, first: bool, from: Start, k: nat, rep: nat): seq<Event>
    requires k <= |s.parts|
  {
    if !first then RepsFrom(s, 0, rep)
    else if rep <= from.1 then [Sleep(Ms(SectionEntryWait))]
    else [Sleep(Ms(SectionEntryWait))] + RepTrace(s, from.1, k) + RepsFrom(s, from.1 + 1, rep)
  }

  lemma SectionSoFarStep(s: WorkoutSet, first: bool, from: Start, k: nat, rep: nat)
    requires k <= |s.parts| && (first ==> from.1 <= rep)
    ensures SectionSoFar(s, first, from, k, rep + 1) ==
      SectionSoFar(s, first, from, k, rep) + RepTrace(s, rep, if first && rep == from.1 then k else 0)
  {
    assert s.parts[0..] == s.parts;
    if first && rep == from.1 {
      assert RepsFrom(s, from.1 + 1, rep + 1) == [];
    }
  }

  /** The repetition loop of one section, with the `first` flag. */
  method PlaySection(s: WorkoutSet, first: bool, from: Start) returns (p: Progress)
    ensures p == SectionPlay(s, first, from)
  {
    var events: seq<Event> := [];
    var start: nat := 0;
    if first {
      events := [Sleep(Ms(SectionEntryWait))];
      start := from.1;
    }
    var isFirst := first;
    ghost var k: nat := 0;
    var rep := start;
    while rep < s.reps
      invariant start <= rep && (first ==> start == from.1) && (!first ==> start == 0)
      invariant isFirst <==> first && rep == start
      invariant rep > start ==> rep <= s.reps
      invariant k <= |s.parts| && (rep > start && first ==> NthExercise(s.parts, from.2) == Some(k))
      invariant events == SectionSoFar(s, first, from, k, rep)
      decreases s.reps - rep
    {
      var partStart := 0;
      if isFirst {
        isFirst := false;
        var found := FindStart(s.parts, from.2);
        if found.None? {
          events := events + [Beep(Mid), Beep(Mid), Sleep(Ms(PreSectionWait))];
          return Progress(events, Some(StartOutOfBounds), false);
        }
        partStart := found.value;
        k := partStart;
      }
      var repEvents := PlayRepetition(s, rep, partStart);
      SectionSoFarStep(s, first, from, k, rep);
      events := events + repEvents;
      rep := rep + 1;
    }
    return Progress(events, None, isFirst);
  }

  /** `do_workout`. */
  method Play(w: Workout, from: Start) returns (trace: seq<Event>, outcome: Outcome)
    ensures (trace, outcome) == PlaySpec(w, from)
  {
    // The opening banner prints the estimated length.
    var length := Length(w);
    if length.None? {
      return [], Failed(LengthOverflow);
    }
    var secs := w.sections;
    if from != (0, 0, 0) {
      if from.0 >= |secs| {
        return Opening, Failed(SectionIndexPanic);
      }
      var parts := CountExercises(secs[from.0].parts);
      if from.0 > |secs| || from.1 > secs[from.0].reps || from.2 > parts {
        return Opening, Failed(StartOutOfBounds);
      }
    }
    var first := true;
    var played: seq<Event> := [];
    var rest := secs[from.0..];
    var i := 0;
    while i < |rest|
      invariant i <= |rest|
      invariant SectionsPlay(rest[..i], from) == Progress(played, None, first)
      decreases |rest| - i
    {
      var p := PlaySection(rest[i], first, from);
      SectionsPlayStep(rest, i, from, played, first, p);
      played := played + p.events;
      if p.failed.Some? {
        SectionsPlayStops(rest, i + 1, from);
        return Opening + played, Failed(p.failed.value);
      }
      first := p.first;
      i := i + 1;
    }
    assert rest[..i] == rest;
    return Opening + played + Closing, Completed;
  }
}
