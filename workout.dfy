/** The workout model of src/workout.rs and its estimated duration
    (`Workout::length`). Durations in the model are whole seconds, the only
    durations the loader ever builds. */
module WorkoutModel {
  import opened Basics

  /** Cue severity of a beep. */
  datatype BeepLevel = High | Mid | Low

  /** How much of an exercise to do: a timed hold, optionally cued at its
      midpoint, or an operator-confirmed repetition count. */
  datatype ExcerciseAmout = Time(duration: nat, midbeep: bool) | Reps(count: U16)

  /** One line of a section: an exercise or a rest (seconds). */
  datatype WorkoutSetElement =
    | Excercise(name: string, amount: ExcerciseAmout)
    | Rest(duration: nat)

  /** A section (`Set`): optional name, its elements, how many times it is
      repeated, and the rest between two repetitions (seconds). */
  datatype WorkoutSet = WorkoutSet(name: Option<string>, parts: seq<WorkoutSetElement>, reps: U16, setRest: Option<nat>)

  datatype Workout = Workout(name: string, sections: seq<WorkoutSet>)

  /** Seconds an element contributes to the estimate: rep-based exercises count 0. */
  function PartDuration(p: WorkoutSetElement): nat
  {
    match p
    case Excercise(_, Time(d, _)) => d
    case Excercise(_, Reps(_)) => 0
    case Rest(d) => d
  }

  /** The sum of the element durations of a section. */
  function PartsDuration(ps: seq<WorkoutSetElement>): nat
  {
    if ps == [] then 0 else PartsDuration(ps[..|ps| - 1]) + PartDuration(ps[|ps| - 1])
  }

  /** `set_rest * (reps - 1) + parts * reps`; None where `reps - 1` underflows
      (a section header that says `x0`), which panics in `Workout::length`. */
  function SectionLength(s: WorkoutSet): (r: Option<nat>)
    ensures r.Some? <==> s.reps >= 1
  {
    var rest := match s.setRest case Some(d) => d case None => 0;
    if s.reps == 0 then None
    else Some(rest * (s.reps - 1) + PartsDuration(s.parts) * s.reps)
  }

  /** The sum of the section lengths, or None as soon as one is undefined. */
  function SectionsLength(secs: seq<WorkoutSet>): (r: Option<nat>)
    ensures r.Some? <==> forall i :: 0 <= i < |secs| ==> secs[i].reps >= 1
  {
    if secs == [] then Some(0)
    else
      match (SectionsLength(secs[..|secs| - 1]), SectionLength(secs[|secs| - 1]))
      case (Some(a), Some(b)) => Some(a + b)
      case _ => None
  }

  /** `Workout::length`, in seconds. */
  function Length(w: Workout): Option<nat>
  {
    SectionsLength(w.sections)
  }

  // ---------------------------------------------------------------------------
  // Properties of the estimate

  /** The element sum is additive over concatenation. */
  lemma {:induction false} PartsDurationAppend(a: seq<WorkoutSetElement>, b: seq<WorkoutSetElement>)
    ensures PartsDuration(a + b) == PartsDuration(a) + PartsDuration(b)
  {
    if b != [] {
      assert (a + b)[..|a + b| - 1] == a + b[..|b| - 1];
      PartsDurationAppend(a, b[..|b| - 1]);
    } else {
      assert a + b == a;
    }
  }

  /** A rep-based exercise adds nothing to the estimate, wherever it stands. */
  lemma RepExerciseIsFree(a: seq<WorkoutSetElement>, name: string, n: U16, b: seq<WorkoutSetElement>)
    ensures PartsDuration(a + [Excercise(name, Reps(n))] + b) == PartsDuration(a + b)
  {
    PartsDurationAppend(a + [Excercise(name, Reps(n))], b);
    PartsDurationAppend(a, [Excercise(name, Reps(n))]);
    PartsDurationAppend(a, b);
    assert [Excercise(name, Reps(n))][..0] == [];
  }

  /** With a single repetition the set rest never contributes. */
  lemma SingleRepIgnoresSetRest(s: WorkoutSet)
    requires s.reps == 1
    ensures SectionLength(s) == Some(PartsDuration(s.parts))
  {
  }

  /** The workout length is additive over sections. */
  lemma {:induction false} SectionsLengthAppend(a: seq<WorkoutSet>, b: seq<WorkoutSet>)
    requires SectionsLength(a).Some? && SectionsLength(b).Some?
    ensures SectionsLength(a + b) == Some(SectionsLength(a).value + SectionsLength(b).value)
  {
    if b == [] {
      assert a + b == a;
    } else {
      assert (a + b)[..|a + b| - 1] == a + b[..|b| - 1];
      assert (a + b)[|a + b| - 1] == b[|b| - 1];
      var init := b[..|b| - 1];
      assert SectionsLength(init).Some? by {
        forall i | 0 <= i < |init| ensures init[i].reps >= 1 {
          assert init[i] == b[i];
        }
      }
      SectionsLengthAppend(a, b[..|b| - 1]);
    }
  }

  /** Three repetitions of an empty section with a 10 s set rest are 20 s long:
      the set rest counts once between each two repetitions. */
  lemma LengthOfRestOnlySection()
    ensures Length(Workout("W", [WorkoutSet(None, [], 3, Some(10))])) == Some(20)
  {
    var secs := [WorkoutSet(None, [], 3, Some(10))];
    assert secs[..0] == [];
  }
}
