/** Properties of the playback trace: the time it sleeps against the
    estimate, the cues of each element, where a resumed playback starts, and
    how the start checks end the playback. */
module PlayerProperties {
  import opened Basics
  import opened WorkoutModel
  import opened Player

  /** Milliseconds slept over a trace. */
  function SleepTotal(es: seq<Event>): nat
  {
    if es == [] then 0
    else SleepTotal(es[..|es| - 1]) + (match es[|es| - 1] case Sleep(ms) => ms case _ => 0)
  }

  lemma {:induction false} SleepTotalAppend(a: seq<Event>, b: seq<Event>)
    ensures SleepTotal(a + b) == SleepTotal(a) + SleepTotal(b)
    decreases |b|
  {
    if b == [] {
      assert a + b == a;
    } else {
      assert (a + b)[..|a + b| - 1] == a + b[..|b| - 1];
      SleepTotalAppend(a, b[..|b| - 1]);
    }
  }

  lemma SleepTotalOne(e: Event)
    ensures SleepTotal([e]) == match e case Sleep(ms) => ms case _ => 0
  {
    assert [e][..0] == [];
  }

  // ---------------------------------------------------------------------------
  // Elements

  /** A rest sleeps exactly its duration, whether or not it is split for the
      warning beep ... */
  lemma WarnedRestSleeps(d: nat)
    ensures SleepTotal(WarnedRest(d)) == Ms(d)
  {
    if d > RestEndWarning {
      var es := WarnedRest(d);
      SleepTotalAppend([Sleep(Ms(d - RestEndWarning)), Beep(Mid)], [Sleep(Ms(RestEndWarning))]);
      SleepTotalAppend([Sleep(Ms(d - RestEndWarning))], [Beep(Mid)]);
      SleepTotalOne(Sleep(Ms(d - RestEndWarning)));
      SleepTotalOne(Beep(Mid));
      SleepTotalOne(Sleep(Ms(RestEndWarning)));
      assert es == [Sleep(Ms(d - RestEndWarning)), Beep(Mid)] + [Sleep(Ms(RestEndWarning))];
      assert [Sleep(Ms(d - RestEndWarning)), Beep(Mid)] == [Sleep(Ms(d - RestEndWarning))] + [Beep(Mid)];
    } else {
      SleepTotalOne(Sleep(Ms(d)));
    }
  }

  /** ... and is the only element that can warn before its end: the Mid beep
      comes exactly when more than 5 s of rest are left, and a rest never
      cues High or waits for the operator. */
  lemma RestCues(d: nat)
    ensures Beep(Mid) in ElementTrace(Rest(d)) <==> d > RestEndWarning
    ensures Beep(High) !in ElementTrace(Rest(d)) && ReadLine !in ElementTrace(Rest(d))
  {
  }

  /** An exercise starts with a High beep; a timed one ends with a Low beep,
      with a Mid beep halfway exactly when it asks for one; one counted in
      repetitions waits for the operator instead. */
  lemma ExerciseCues(name: string, amount: ExcerciseAmout)
    ensures ElementTrace(Excercise(name, amount))[0] == Beep(High)
    ensures Beep(Low) in ElementTrace(Excercise(name, amount)) <==> amount.Time?
    ensures ReadLine in ElementTrace(Excercise(name, amount)) <==> amount.Reps?
    ensures Beep(Mid) in ElementTrace(Excercise(name, amount)) <==> amount.Time? && amount.midbeep
  {
  }

  /** Every element sleeps the seconds the estimate gives it. */
  lemma ElementSleeps(p: WorkoutSetElement)
    ensures SleepTotal(ElementTrace(p)) == Ms(PartDuration(p))
  {
    match p
    case Excercise(_, Time(d, true)) =>
      var es := ElementTrace(p);
      assert es == [Beep(High), Sleep(500 * d)] + [Beep(Mid), Sleep(500 * d)] + [Beep(Low)];
      SleepTotalAppend([Beep(High), Sleep(500 * d)] + [Beep(Mid), Sleep(500 * d)], [Beep(Low)]);
      SleepTotalAppend([Beep(High), Sleep(500 * d)], [Beep(Mid), Sleep(500 * d)]);
      TwoSleeps(Beep(High), Sleep(500 * d));
      TwoSleeps(Beep(Mid), Sleep(500 * d));
      SleepTotalOne(Beep(Low));
    case Excercise(_, Time(d, false)) =>
      var es := ElementTrace(p);
      assert es == [Beep(High), Sleep(Ms(d))] + [Beep(Low)];
      SleepTotalAppend([Beep(High), Sleep(Ms(d))], [Beep(Low)]);
      TwoSleeps(Beep(High), Sleep(Ms(d)));
      SleepTotalOne(Beep(Low));
    case Excercise(_, Reps(_)) =>
      TwoSleeps(Beep(High), ReadLine);
    case Rest(d) =>
      WarnedRestSleeps(d);
  }

  lemma TwoSleeps(a: Event, b: Event)
    ensures SleepTotal([a, b]) == SleepTotal([a]) + SleepTotal([b])
  {
    assert [a, b] == [a] + [b];
    SleepTotalAppend([a], [b]);
  }

  /** A run of elements sleeps the sum of their durations. */
  lemma {:induction false} PartsSleeps(ps: seq<WorkoutSetElement>)
    ensures SleepTotal(PartsTrace(ps)) == Ms(PartsDuration(ps))
    decreases |ps|
  {
    if ps != [] {
      PartsSleeps(ps[..|ps| - 1]);
      ElementSleeps(ps[|ps| - 1]);
      SleepTotalAppend(PartsTrace(ps[..|ps| - 1]), ElementTrace(ps[|ps| - 1]));
    }
  }

  // ---------------------------------------------------------------------------
  // Sections

  /** The set rest of a section in seconds, 0 when it has none. */
  function SetRestSeconds(s: WorkoutSet): nat
  {
    match s.setRest case Some(d) => d case None => 0
  }

  lemma RepSleeps(s: WorkoutSet, rep: nat)
    ensures SleepTotal(RepTrace(s, rep, 0)) ==
      Ms(PreSectionWait) + Ms(PartsDuration(s.parts)) + (if rep + 1 < s.reps then Ms(SatSub(SetRestSeconds(s), PreSectionWait)) else 0)
  {
    var head := [Beep(Mid), Beep(Mid), Sleep(Ms(PreSectionWait))];
    assert s.parts[0..] == s.parts;
    SleepTotalAppend(head + PartsTrace(s.parts), SetRestTrace(s, rep));
    SleepTotalAppend(head, PartsTrace(s.parts));
    assert head == [Beep(Mid), Beep(Mid)] + [Sleep(Ms(PreSectionWait))];
    SleepTotalAppend([Beep(Mid), Beep(Mid)], [Sleep(Ms(PreSectionWait))]);
    TwoSleeps(Beep(Mid), Beep(Mid));
    SleepTotalOne(Beep(Mid));
    SleepTotalOne(Sleep(Ms(PreSectionWait)));
    PartsSleeps(s.parts);
    if rep + 1 < s.reps && s.setRest.Some? {
      WarnedRestSleeps(SatSub(s.setRest.value, PreSectionWait));
    }
  }

  lemma MulSucc(a: nat, x: nat)
    ensures (a + 1) * x == a * x + x
  {
  }

  /** A repetition that is not the last sleeps its elements, the 2 s wait and
      the shortened set rest. */
  lemma InnerRepSleeps(s: WorkoutSet, rep: nat)
    requires rep + 1 < s.reps
    ensures SleepTotal(RepTrace(s, rep, 0)) ==
      Ms(PreSectionWait) + Ms(PartsDuration(s.parts)) + Ms(SatSub(SetRestSeconds(s), PreSectionWait))
  {
    RepSleeps(s, rep);
  }

  /** The first `hi` repetitions of a section that are not its last one,
      each followed by its set rest. */
  lemma {:induction false} RepsSleepsBefore(s: WorkoutSet, hi: nat)
    requires hi < s.reps
    ensures SleepTotal(RepsFrom(s, 0, hi)) ==
      hi * (Ms(PreSectionWait) + Ms(PartsDuration(s.parts)) + Ms(SatSub(SetRestSeconds(s), PreSectionWait)))
    decreases hi
  {
    if hi > 0 {
      var x := Ms(PreSectionWait) + Ms(PartsDuration(s.parts)) + Ms(SatSub(SetRestSeconds(s), PreSectionWait));
      var k: nat := hi - 1;
      RepsSleepsBefore(s, k);
      InnerRepSleeps(s, k);
      SleepTotalAppend(RepsFrom(s, 0, k), RepTrace(s, k, 0));
      var before := SleepTotal(RepsFrom(s, 0, k));
      var one := SleepTotal(RepTrace(s, k, 0));
      assert SleepTotal(RepsFrom(s, 0, hi)) == before + one;
      MulSucc(k, x);
    }
  }

  /** A section played in full sleeps each repetition's elements and 2 s
      wait, and between two repetitions its set rest shortened by 2 s. */
  lemma SectionSleeps(s: WorkoutSet)
    requires s.reps >= 1
    ensures SleepTotal(RepsFrom(s, 0, s.reps)) ==
      s.reps * (Ms(PreSectionWait) + Ms(PartsDuration(s.parts))) +
      (s.reps - 1) * Ms(SatSub(SetRestSeconds(s), PreSectionWait))
  {
    var n := s.reps;
    var once := Ms(PreSectionWait) + Ms(PartsDuration(s.parts));
    var r := Ms(SatSub(SetRestSeconds(s), PreSectionWait));
    var m: nat := n - 1;
    assert RepsFrom(s, 0, n) == RepsFrom(s, 0, m) + RepTrace(s, m, 0);
    RepsSleepsBefore(s, m);
    RepSleeps(s, m);
    SleepTotalAppend(RepsFrom(s, 0, m), RepTrace(s, m, 0));
    var before := SleepTotal(RepsFrom(s, 0, m));
    var last := SleepTotal(RepTrace(s, m, 0));
    assert before == m * (once + r);
    assert last == once;
    SumRegroup(m, once, r);
  }

  lemma SumRegroup(m: nat, once: nat, r: nat)
    ensures m * (once + r) + once == (m + 1) * once + m * r
  {
    MulSucc(m, once);
  }

  /** Against `Workout::length`: when the set rest is at least 2 s (or
      absent), playing a section takes its estimated length plus 2 s per
      repetition not preceded by a set rest: once with a set rest, every
      repetition without. */
  lemma PlaybackVersusEstimate(s: WorkoutSet)
    requires s.reps >= 1
    requires s.setRest.None? || s.setRest.value >= PreSectionWait
    ensures SleepTotal(RepsFrom(s, 0, s.reps)) ==
      Ms(SectionLength(s).value) + Ms(PreSectionWait) * (if s.setRest.Some? then 1 else s.reps)
  {
    SectionSleeps(s);
    var sr := SetRestSeconds(s);
    assert SectionLength(s).value == sr * (s.reps - 1) + PartsDuration(s.parts) * s.reps;
    EstimateArithmetic(s.reps, PartsDuration(s.parts), sr, s.setRest.Some?);
  }

  lemma EstimateArithmetic(n: nat, p: nat, sr: nat, hasRest: bool)
    requires n >= 1 && (hasRest ==> sr >= 2) && (!hasRest ==> sr == 0)
    ensures n * (2000 + 1000 * p) + (n - 1) * (1000 * SatSub(sr, 2)) ==
      1000 * (sr * (n - 1) + p * n) + 2000 * (if hasRest then 1 else n)
  {
    assert n * (2000 + 1000 * p) == 2000 * n + 1000 * (p * n);
    if hasRest {
      assert (n - 1) * (1000 * (sr - 2)) == 1000 * (sr * (n - 1)) - 2000 * (n - 1);
    }
  }

  /** The set rest only separates repetitions: the last repetition of a
      section ends with its last element. */
  lemma LastRepetitionHasNoSetRest(s: WorkoutSet)
    requires s.reps >= 1
    ensures RepsFrom(s, 0, s.reps) ==
      RepsFrom(s, 0, s.reps - 1) + [Beep(Mid), Beep(Mid), Sleep(Ms(PreSectionWait))] + PartsTrace(s.parts)
  {
    assert s.parts[0..] == s.parts;
    assert SetRestTrace(s, s.reps - 1) == [];
  }

  // ---------------------------------------------------------------------------
  // Resuming

  /** The element where playback resumes is an exercise with exactly `n`
      exercises before it; there is none when the section holds `n` or fewer. */
  lemma {:induction false} NthExerciseFromIsNth(ps: seq<WorkoutSetElement>, i: nat, n: nat)
    requires i <= |ps|
    ensures NthExerciseFrom(ps, i, n).None? <==> CountExercises(ps[i..]) <= n
    ensures NthExerciseFrom(ps, i, n).Some? ==>
      var j := NthExerciseFrom(ps, i, n).value; ps[j].Excercise? && CountExercises(ps[i..j]) == n
    decreases |ps| - i
  {
    if i < |ps| {
      assert ps[i..][1..] == ps[i + 1..];
      if ps[i].Excercise? && n == 0 {
        assert ps[i..i] == [];
      } else {
        var n' := if ps[i].Excercise? then n - 1 else n;
        NthExerciseFromIsNth(ps, i + 1, n');
        if NthExerciseFrom(ps, i + 1, n').Some? {
          var j := NthExerciseFrom(ps, i + 1, n').value;
          assert ps[i..j][1..] == ps[i + 1..j];
        }
      }
    }
  }

  lemma NthExerciseIsNth(ps: seq<WorkoutSetElement>, n: nat)
    ensures NthExercise(ps, n).None? <==> CountExercises(ps) <= n
    ensures NthExercise(ps, n).Some? ==>
      ps[NthExercise(ps, n).value].Excercise? && CountExercises(ps[..NthExercise(ps, n).value]) == n
  {
    NthExerciseFromIsNth(ps, 0, n);
    assert ps[0..] == ps;
    if NthExercise(ps, n).Some? {
      assert ps[0..NthExercise(ps, n).value] == ps[..NthExercise(ps, n).value];
    }
  }

  /** Rests before the first exercise of the starting section are skipped. */
  lemma {:induction false} LeadingRestsSkipped(rests: seq<WorkoutSetElement>, e: WorkoutSetElement, tail: seq<WorkoutSetElement>)
    requires forall i :: 0 <= i < |rests| ==> rests[i].Rest?
    requires e.Excercise?
    ensures NthExercise(rests + [e] + tail, 0) == Some(|rests|)
  {
    var ps := rests + [e] + tail;
    forall i | 0 <= i <= |rests|
      ensures NthExerciseFrom(ps, i, 0) == Some(|rests|)
    {
      LeadingRestsSkippedFrom(rests, e, tail, i);
    }
  }

  lemma {:induction false} LeadingRestsSkippedFrom(rests: seq<WorkoutSetElement>, e: WorkoutSetElement, tail: seq<WorkoutSetElement>, i: nat)
    requires forall i :: 0 <= i < |rests| ==> rests[i].Rest?
    requires e.Excercise? && i <= |rests|
    ensures NthExerciseFrom(rests + [e] + tail, i, 0) == Some(|rests|)
    decreases |rests| - i
  {
    var ps := rests + [e] + tail;
    if i < |rests| {
      assert ps[i] == rests[i];
      LeadingRestsSkippedFrom(rests, e, tail, i + 1);
    } else {
      assert ps[i] == e;
    }
  }

  // ---------------------------------------------------------------------------
  // Whole playback

  /** Sections played in full, one after the other. */
  function FullSections(secs: seq<WorkoutSet>): seq<Event>
  {
    if secs == [] then [] else FullSections(secs[..|secs| - 1]) + RepsFrom(secs[|secs| - 1], 0, secs[|secs| - 1].reps)
  }

  /** A section after the one where the start took effect is played in full. */
  lemma LaterSectionInFull(s: WorkoutSet, from: Start)
    ensures SectionPlay(s, false, from) == Progress(RepsFrom(s, 0, s.reps), None, false)
  {
  }

  lemma FullSectionsSnoc(init: seq<WorkoutSet>, last: WorkoutSet)
    ensures FullSections(init + [last]) == FullSections(init) + RepsFrom(last, 0, last.reps)
  {
    var b := init + [last];
    assert b[..|b| - 1] == init && b[|b| - 1] == last;
  }

  /** One more section after the start has taken effect is played in full. */
  lemma FullSectionStep(a: seq<WorkoutSet>, init: seq<WorkoutSet>, last: WorkoutSet, from: Start, ev: seq<Event>)
    requires SectionsPlay(a + init, from) == Progress(ev + FullSections(init), None, false)
    ensures SectionsPlay(a + init + [last], from) == Progress(ev + FullSections(init + [last]), None, false)
  {
    var secs := a + init + [last];
    LaterSectionInFull(last, from);
    assert secs[..|secs| - 1] == a + init && secs[|secs| - 1] == last;
    FullSectionsSnoc(init, last);
    assert ev + FullSections(init + [last]) == ev + FullSections(init) + RepsFrom(last, 0, last.reps);
  }

  /** The start position is applied once: after the section where it took
      effect, every further section is played in full. */
  lemma {:induction false} LaterSectionsPlayInFull(a: seq<WorkoutSet>, b: seq<WorkoutSet>, from: Start)
    requires SectionsPlay(a, from).failed.None? && !SectionsPlay(a, from).first
    ensures SectionsPlay(a + b, from) ==
      Progress(SectionsPlay(a, from).events + FullSections(b), None, false)
    decreases |b|
  {
    var ev := SectionsPlay(a, from).events;
    if b == [] {
      assert a + b == a;
      assert ev + FullSections(b) == ev;
    } else {
      var init := b[..|b| - 1];
      var last := b[|b| - 1];
      LaterSectionsPlayInFull(a, init, from);
      FullSectionStep(a, init, last, from, ev);
      assert init + [last] == b;
      assert a + init + [last] == a + b;
    }
  }

  /** A workout whose estimate panics plays nothing at all; every other
      playback starts with the High, Mid, Low opening. */
  lemma SilentExactlyOnLengthPanic(w: Workout, from: Start)
    ensures Length(w).None? <==> PlaySpec(w, from) == ([], Failed(LengthOverflow))
    ensures Length(w).Some? ==> |PlaySpec(w, from).0| >= 3 && PlaySpec(w, from).0[..3] == Opening
  {
    if Length(w).Some? {
      var r := PlaySpec(w, from);
      if r.0 != Opening {
        var p := SectionsPlay(w.sections[from.0..], from);
        assert r.0 == Opening + p.events || r.0 == Opening + p.events + Closing;
      }
    }
  }

  /** A completed playback ends with the Low, Mid, High closing between two 2 s waits. */
  lemma CompletedEndsWithClosing(w: Workout, from: Start)
    requires PlaySpec(w, from).1 == Completed
    ensures |PlaySpec(w, from).0| >= 8
    ensures PlaySpec(w, from).0[|PlaySpec(w, from).0| - 5..] == Closing
  {
    var p := SectionsPlay(w.sections[from.0..], from);
    assert PlaySpec(w, from).0 == Opening + p.events + Closing;
  }

  /** A set number past the last set panics, after the opening. */
  lemma StartPastLastSetPanics(w: Workout, from: Start)
    requires Length(w).Some? && from.0 >= |w.sections| && from != (0, 0, 0)
    ensures PlaySpec(w, from) == (Opening, Failed(SectionIndexPanic))
  {
  }

  /** A repetition or exercise number past the set's count is refused
      before anything is played beyond the opening. */
  lemma StartPastCountsRefused(w: Workout, from: Start)
    requires Length(w).Some? && from.0 < |w.sections|
    requires from.1 > w.sections[from.0].reps || from.2 > CountExercises(w.sections[from.0].parts)
    ensures from != (0, 0, 0) && PlaySpec(w, from) == (Opening, Failed(StartOutOfBounds))
  {
  }

  /** The playback of a section that fails when the start position is
      applied to it: the 6 s entry wait and the repetition's two Mid beeps and
      2 s wait, then nothing more. */
  const FailedEntry: seq<Event> := [Sleep(Ms(SectionEntryWait)), Beep(Mid), Beep(Mid), Sleep(Ms(PreSectionWait))]

  lemma FirstSectionFails(secs: seq<WorkoutSet>, from: Start)
    requires |secs| >= 1 && from.1 < secs[0].reps && CountExercises(secs[0].parts) <= from.2
    ensures SectionsPlay(secs, from) == Progress(FailedEntry, Some(StartOutOfBounds), false)
  {
    NthExerciseIsNth(secs[0].parts, from.2);
    assert secs[..1][..0] == [];
    SectionsPlayStops(secs, 1, from);
  }

  /** Starting afresh, a first section with repetitions but no exercise
      makes the playback fail: there is no exercise to start from. */
  lemma FreshStartNeedsAnExercise(w: Workout)
    requires Length(w).Some? && |w.sections| >= 1 && CountExercises(w.sections[0].parts) == 0
    ensures PlaySpec(w, (0, 0, 0)) == (Opening + FailedEntry, Failed(StartOutOfBounds))
  {
    var secs := w.sections;
    assert secs[0].reps >= 1;
    assert secs[0..] == secs;
    FirstSectionFails(secs, (0, 0, 0));
  }

  /** The exercise check compares with `>`: an exercise number one past the
      last exercise passes it, and the playback then fails once the
      repetition starts. */
  lemma ExerciseOnePastLastFailsLate(w: Workout, from: Start)
    requires Length(w).Some? && from.0 < |w.sections|
    requires from.1 < w.sections[from.0].reps && from.2 == CountExercises(w.sections[from.0].parts)
    ensures PlaySpec(w, from) == (Opening + FailedEntry, Failed(StartOutOfBounds))
  {
    var secs := w.sections;
    var rest := secs[from.0..];
    assert rest[0] == secs[from.0];
    FirstSectionFails(rest, from);
    if from == (0, 0, 0) {
      assert rest == secs;
    }
  }

  /** The repetition check compares with `>` too: a repetition number one
      past the last lets the starting set play only its 6 s entry wait, and
      the start position carries over, unchanged, to the next set. */
  lemma RepetitionOnePastLastMovesOn(s: WorkoutSet, next: WorkoutSet, from: Start)
    requires from.1 == s.reps
    ensures SectionsPlay([s, next], from) ==
      var q := SectionPlay(next, true, from);
      Progress([Sleep(Ms(SectionEntryWait))] + q.events, q.failed, q.first)
  {
    assert [s, next][..1] == [s];
    assert [s][..0] == [];
    assert SectionPlay(s, true, from) == Progress([Sleep(Ms(SectionEntryWait))], None, true);
    assert SectionsPlay([s], from) == Progress([] + [Sleep(Ms(SectionEntryWait))], None, true);
  }
}
