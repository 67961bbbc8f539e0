# Workout: a verified model of the workout loader and player

Workout is a command-line interval timer. It reads a workout description,
which is a text file holding:

- a `Workout NAME` line;
- `Set [NAME] [xN]` sections;
- `Excercise NAME MM:SS["]`, `Excercise NAME xN` and `Rest MM:SS` elements in each section;
- an optional `Set rest MM:SS` line closing a section.

It then plays the workout with beeps and pauses. The operator presses Enter
after each rep-based exercise. An optional second argument
`SET[/SET_REP].EXCERCISE` (1-based) starts the playback part-way through.

The project has one module per concern:

- `Basics`: `Option`, `Result`, the `u16` range, saturating subtraction.
- `Text`: the operations of Rust's `str` that the program uses. This covers
  `trim_start`, `strip_prefix`, `split_once`, `rsplit_once`, `lines`, the blank
  filter, `u16`/`u64` parsing and byte-offset slicing over UTF-8. Each comes
  with the lemmas that pin it down.
- `WorkoutModel`: `BeepLevel`, `ExcerciseAmout`, `WorkoutSetElement`,
  `WorkoutSet` and `Workout`. It also holds `Workout::length`, the estimated
  duration in seconds.
- `Loader`: `load_workout` with `parse_dur` and `get_name_reps`.
  - Recursive functions over the classified lines say what each stretch of
    lines parses to.
  - `LoadSpec` is the whole loader as a function.
  - The methods `ReadElements`, `ReadSection`, `ReadSections` and
    `LoadWorkout` run the cursor loops of `load_workout`. Each is proved equal to
    those functions.
- `StartPosition`: `parse_from` of `src/main.rs`, and the default start
  `main` uses when no argument is given.
- `Player`: `do_workout` as an event trace. The trace is the beeps, the
  sleeps (in milliseconds) and the operator reads, in order, followed by how
  the playback ends.
  - `PlaySpec` is the specification.
  - `Play` and its helper methods are the nested loops of `do_workout`, proved to
    produce exactly that trace.
- `PlayerProperties`: what the trace promises.
  - Every element sleeps exactly its duration.
  - The cues come in order: High to start an exercise, Mid halfway, Low at
    the end.
  - A section played in full, from its first repetition, sleeps each
    repetition's elements and 2 s wait, plus its set rest less 2 s between
    two repetitions. When the set rest is absent or at least 2 s, that is
    the section's estimated length plus 2 s: once with a set rest, once per
    repetition without. The 6 s entry wait, the closing waits and a start
    part-way through are not part of this total.
  - The start position is honoured, or refused.
  - The opening and closing beeps appear where they should.
- `Format`: a renderer for the workouts the text format can express. It
  proves that `load_workout` reads a rendered workout back, so the loader is
  a left inverse of the renderer.
- `LoaderProperties`: how the loader treats concrete and general inputs.
  This covers durations, section headers, element lines, the lenient set
  rest and blank lines. For whole texts it covers these errors:
  - a text without lines;
  - a first line without `Workout `;
  - a section that does not start with `Set`;
  - an element line that does not parse, in any set and after any number of
    valid elements, which gives its own error;
  - the misspelt keyword, after any workout the format can express.

  Duration errors are shown for element lines (`Rest`, timed `Excercise`)
  and for the set-rest line.

The model follows the debug build of the program. Each panic of the
program is an error value of the model:

- `EmptySource`: indexing the first line of a text without lines.
- `MalformedDuration`: slicing a duration token shorter than 5 bytes, or
  slicing off a character boundary.
- `LengthOverflow`: `reps - 1` when a section says `x0`.
- `SectionIndexPanic`: indexing the sections with a set number past the end.

Where the behaviour of the code is surprising, the model follows the code
and proves the surprise as a lemma:

- Only `Excercise` (with that spelling) is an exercise keyword. A
  description that writes `Exercise` ends the element list there and fails
  to load (`ExerciseSpellingEndsElements`, `ExerciseSpellingFails`).
- `Set x3` is a section named `x3` played once (`UnnamedCountIsAName`).
- `parse_dur` checks neither the separator nor that seconds are below 60
  (`ParseDurAnySeparator`).
- `parse_dur` fails by panicking on tokens shorter than five bytes
  (`ParseDurSingleDigitMinutes`).
- A `Set rest` line whose duration is not a number is no set rest. It is
  then read as the header of a new section (`LenientSetRestMakesASection`).
  A `Set rest` token that is too short still panics (`SetRestShortFails`).
- The start-position bounds checks compare with `>`.
  - An exercise one past the last passes the check and fails only when its
    repetition starts (`ExerciseOnePastLastFailsLate`).
  - A repetition one past the last skips the starting set and carries the
    start position over to the next set (`RepetitionOnePastLastMovesOn`).
- The starting set is indexed before anything is checked, so a set number
  past the last panics (`StartPastLastSetPanics`).

## Model

| member | source | states |
|---|---|---|
| Text.TrimStart | src/workout.rs:127-128 | the result is the suffix left after a maximal run of leading whitespace |
| Text.StripPrefix | src/workout.rs:127-131 | some exactly when the prefix is there, and then prefix plus result is the input |
| Text.SplitOnce | src/workout.rs:164 | none exactly when the separator is absent; otherwise the input is left + separator + right, and left holds no separator |
| Text.RSplitOnce | src/workout.rs:169 | none exactly when the separator is absent; otherwise the input is left + separator + right, and right holds no separator |
| Text.SplitOnceAt | src/workout.rs:164-166 | `split_once` splits at the first separator, whatever follows it |
| Text.RSplitOnceAt | src/workout.rs:148 | `rsplit_once` splits at the last separator, whatever precedes it |
| Text.Lines | src/workout.rs:125 | no line produced contains a line feed |
| Text.NonBlank | src/workout.rs:125 | the filter keeps no blank line, and it never adds lines |
| Text.LinesJoinLines | src/workout.rs:125 | whole lines, each ended by a line feed, split back into the same lines |
| Text.NonBlankKeepsFilled | src/workout.rs:125 | the blank filter leaves a text without blank lines unchanged |
| Text.NonBlankFilledPrefix | src/workout.rs:125 | lines that all carry something are kept, in order, ahead of what the filter makes of the lines after them |
| Text.NonBlankIgnoresBlank | src/workout.rs:125 | inserting a blank line anywhere does not change the filtered lines |
| Text.ParseUnsigned | src/workout.rs:121 | a parsed number never exceeds the type's maximum, and the empty string does not parse |
| Text.NatToDecRoundTrip | src/main.rs:22-28 | the decimal text of a number that fits parses back to that number |
| Text.TakeBytes | src/workout.rs:118-119 | a byte offset that falls on a character boundary gives a character count within the string |
| Text.TakeBytesBoundary | src/workout.rs:118-119 | byte offset `k` is `n` characters into the string exactly when those first `n` characters take `k` UTF-8 bytes |
| Text.TakeBytesNone | src/workout.rs:118-119 | the slicing fails exactly when no prefix of the string takes `k` bytes, which means `k` falls inside a character or past the end |
| Text.TakeBytesAscii | src/workout.rs:118-119 | over one-byte characters, byte offsets are character offsets |
| WorkoutModel.SectionLength | src/workout.rs:30-46 | a section's estimate is defined exactly when the section has at least one repetition; `x0` makes `reps - 1` underflow |
| WorkoutModel.SectionsLength | src/workout.rs:27-48 | the workout's estimate is defined exactly when every section has at least one repetition |
| WorkoutModel.PartsDurationAppend | src/workout.rs:33-43 | the element sum is additive over concatenation |
| WorkoutModel.RepExerciseIsFree | src/workout.rs:37-40 | a rep-based exercise inserted anywhere adds nothing to the estimate |
| WorkoutModel.SingleRepIgnoresSetRest | src/workout.rs:45 | a section played once is as long as its elements, whatever its set rest |
| WorkoutModel.SectionsLengthAppend | src/workout.rs:27-48 | the estimate is additive over sections |
| WorkoutModel.LengthOfRestOnlySection | src/workout.rs:45 | three repetitions with a 10 s set rest count the set rest twice |
| Loader.ElementsFrom | src/workout.rs:161-200 | the elements read never run past the end of the text |
| Loader.SectionAt | src/workout.rs:136-219 | a section read from a header moves the cursor forward and stays within the text |
| Loader.ReadElementLine | src/workout.rs:163-197 | the element loop's body reads a line exactly as its line kind says |
| Loader.ReadElements | src/workout.rs:161-200 | the element loop returns exactly the elements, or the first error, that the specification gives from that line |
| Loader.ReadSetRest | src/workout.rs:202-212 | the set-rest read agrees with the specification: no line, no prefix or an undecodable number means no set rest, and a slicing panic is an error |
| Loader.ReadHeader | src/workout.rs:136-158 | the `Set` header read agrees with the line's kind |
| Loader.ReadSection | src/workout.rs:136-219 | one pass of the section loop gives exactly the specified section and the line after it |
| Loader.ReadSections | src/workout.rs:133-220 | the section loop gives exactly the specified sections, or the first error |
| Loader.LoadWorkout | src/workout.rs:116-226 | `load_workout` with its cursors equals the declarative loader `LoadSpec` on every text |
| Loader.SectionsAppend | src/workout.rs:214-219 | pushing a section extends the sections read so far |
| LoaderProperties.ParseDurAscii | src/workout.rs:117-123 | on a one-byte token, characters 0-1 are the minutes and 3-4 the seconds; failure is then always a bad number |
| LoaderProperties.ParseDurShort | src/workout.rs:118 | a one-byte token shorter than five characters makes the slicing fail |
| LoaderProperties.ParseDurFields | src/workout.rs:117-123 | two-digit fields around any one-byte separator, followed by anything, give `60 * MM + SS` |
| LoaderProperties.ParseDurMinutesSeconds | src/workout.rs:117-123 | `01:30` is 90 seconds |
| LoaderProperties.ParseDurIgnoresSuffix | src/workout.rs:180-184 | the trailing `"` that asks for a midpoint beep does not change the duration |
| LoaderProperties.ParseDurAnySeparator | src/workout.rs:118-119 | `01-75` is 135 seconds: neither the separator nor the range of the seconds is checked |
| LoaderProperties.ParseDurLetters | src/workout.rs:121 | non-numeric fields are a bad number, not a panic |
| LoaderProperties.ParseDurSingleDigitMinutes | src/workout.rs:118 | `1:30` is too short for the slicing |
| LoaderProperties.ParseDurSplitsACharacter | src/workout.rs:118 | a multi-byte character in the first two bytes makes the slicing fail even on a five-character token |
| LoaderProperties.TrimStartBlank | src/workout.rs:143-146 | trimming a blank text leaves nothing |
| LoaderProperties.GetNameRepsBlank | src/workout.rs:143-146 | a bare `Set` is unnamed and played once |
| LoaderProperties.GetNameRepsOneWord | src/workout.rs:148-156 | a single word after `Set` is the name, and the repetition count is 1 |
| LoaderProperties.UnnamedCountIsAName | src/workout.rs:148-156 | `Set x3` is named `x3` and played once |
| LoaderProperties.GetNameRepsNoCount | src/workout.rs:148-153 | a last word that is not `x` and a `u16` stays in the name |
| LoaderProperties.OversizedCount | src/workout.rs:149 | `x` and a number beyond `u16` is no count |
| LoaderProperties.OversizedCountIsName | src/workout.rs:148-153 | a count beyond `u16` is part of the name, and the section is played once |
| Format.OtherWordEndsElements | src/workout.rs:167-196 | a first word other than `Excercise` or `Rest` ends the element list |
| Format.OneWordEndsElements | src/workout.rs:163-166 | a line without a space ends the element list |
| LoaderProperties.ExcerciseWithoutAmount | src/workout.rs:169-171 | an exercise line without a second space is a missing amount |
| LoaderProperties.ExcerciseBadReps | src/workout.rs:175-178 | an `x` amount that is no `u16` is a bad repetition count, never a duration |
| LoaderProperties.ExerciseSpellingEndsElements | src/workout.rs:167-196 | the spelling `Exercise` is no keyword and ends the elements |
| LoaderProperties.SetRestBadNumber | src/workout.rs:202-209 | a `Set rest` line with a non-numeric duration is no set rest, and it is a `Set` header named from `rest` on |
| LoaderProperties.SetRestShortFails | src/workout.rs:206 | a `Set rest` duration too short to slice fails the whole load |
| LoaderProperties.SetRestWordHeader | src/workout.rs:136-157 | read as a header, an undecodable one-word set rest names a section played once |
| LoaderProperties.SetRestWordElement | src/workout.rs:164-196 | a `Set rest` line ends an element list |
| LoaderProperties.LenientSetRestMakesASection | src/workout.rs:202-219 | an undecodable `Set rest` line after a section makes a second, empty section named after the line |
| LoaderProperties.SectionsThenStrayLine | src/workout.rs:135-140 | after any number of sections, a line that is neither a header, an element nor a set rest fails with the set expected |
| LoaderProperties.ExerciseSpellingFails | src/workout.rs:136-196 | the text of any workout the format can express, followed by a line spelling `Exercise` and any further lines, fails to load with the set expected |
| LoaderProperties.LoadSpecOfLines | src/workout.rs:125 | two texts with the same non-blank lines load the same |
| LoaderProperties.BlankLineIgnored | src/workout.rs:125 | a blank line inserted anywhere in a text does not change what it loads to |
| LoaderProperties.BlankTextIsEmpty | src/workout.rs:125-127 | a text of blank lines only triggers the first-line panic |
| LoaderProperties.FirstLineNotWorkout | src/workout.rs:127-131 | a first non-blank line not starting with `Workout ` means a missing workout name |
| LoaderProperties.RestLineError | src/workout.rs:192-195 | a `Rest` line whose duration does not decode is a bad rest duration, or the slicing panic |
| LoaderProperties.ExcerciseDurationError | src/workout.rs:179-186 | a timed `Excercise` line whose duration does not decode is a bad exercise duration, or the slicing panic |
| LoaderProperties.RestLettersLine | src/workout.rs:192-195 | `Rest ab:cd` is a bad rest duration |
| LoaderProperties.RestShortLine | src/workout.rs:192-195 | `Rest 1:30` makes the slicing panic |
| LoaderProperties.ExcerciseLettersLine | src/workout.rs:180-184 | `Excercise Run ab:cd` is a bad exercise duration |
| LoaderProperties.BareSetHeader | src/workout.rs:136-146 | a bare `Set` line is an unnamed header played once |
| LoaderProperties.InvalidElementFails | src/workout.rs:161-200 | in a whole text whose first element line, right after any first header line, does not parse, the load fails with that line's error, whatever follows |
| LoaderProperties.LaidThenInvalid | src/workout.rs:133-200 | after any number of sections laid out on classified lines, the last without a set rest, an element line that does not parse is read as one more element of that last set and makes the sections fail with that line's error |
| LoaderProperties.InvalidElementAnywhere | src/workout.rs:161-200 | the text of any workout the format can express whose last set has no set rest, followed by an element line that does not parse and any further lines, fails with that line's error; the line falls after any number of sets and valid elements |
| LoaderProperties.RestLettersText | src/workout.rs:192-195 | the text `Workout W`, `Set`, `Rest ab:cd` fails to load with a bad rest duration |
| LoaderProperties.SectionMustStartWithSet | src/workout.rs:136-140 | a second line not starting with `Set` means a set is expected |
| LoaderProperties.LoadNamedLines | src/workout.rs:127-135 | after the `Workout NAME` line, the workout is named and its sections are read from line 1 |
| Format.ParseDurText | src/workout.rs:117-123 | `parse_dur` reads an `MM:SS` rendering back as its duration |
| Format.HeaderNameReps | src/workout.rs:142-157 | a rendered header gives back the section's name and count |
| Format.ElementParses | src/workout.rs:161-200 | each rendered element line reads back as that element |
| Format.ElementsThenInvalid | src/workout.rs:161-200 | valid element lines followed by one that does not parse give that line's error, whatever their number |
| Format.SectionsFromLaid | src/workout.rs:133-220 | lines laid out as sections up to a line that ends an element list read as those sections followed by what that line starts |
| Format.SectionsFromShaped | src/workout.rs:133-220 | lines shaped as sections read back as exactly those sections |
| Format.RenderedLines | src/workout.rs:125 | the non-blank lines of a rendered workout are its rendered lines |
| Format.LoadRender | src/workout.rs:116-226 | loading the rendering of any expressible workout gives that workout back |
| Format.RenderInjective | src/workout.rs:116-226 | two expressible workouts with the same text are the same workout |
| StartPosition.Component | src/main.rs:22-28 | a component parses exactly when it is a `u16`, and is then the number less one (saturating), at most 65534 |
| StartPosition.ParseFrom | src/main.rs:14-30 | format error exactly when there is no `.`; every component is at most 65534 |
| StartPosition.StartFrom | src/main.rs:36-40 | format error exactly when an argument is given that holds no `.`; every component of a start is at most 65534; no argument means (0, 0, 0) |
| StartPosition.ParseFromWithRep | src/main.rs:14-30 | with a `/`, the repetition is checked first, then the set, then the exercise |
| StartPosition.ParseFromNoRep | src/main.rs:19-28 | without a `/`, the repetition is 0 |
| StartPosition.ParseFromRoundTrip | src/main.rs:14-30 | printing a 0-based position 1-based as `SET/SET_REP.EXCERCISE` and parsing it gives the position back |
| StartPosition.ParseFromRoundTripNoRep | src/main.rs:14-30 | the same without the repetition part, which is then 0 |
| StartPosition.ZeroIsFirst | src/main.rs:22-28 | `0/0.0` saturates to the first set, repetition and exercise |
| StartPosition.OneIsFirst | src/main.rs:22-28 | `1/1.1` is the first set, repetition and exercise |
| StartPosition.SecondDotFails | src/main.rs:15-28 | an exercise part that holds another `.` never parses |
| StartPosition.FirstExerciseIsDefault | src/main.rs:36-40 | starting from `1.1` is starting from the beginning |
| Player.NthExercise | src/workout.rs:288-305 | a found resume point is an index into the elements |
| Player.RestWithWarning | src/workout.rs:346-359 | the rest, split for the 5 s warning when more than 5 s are left, as `WarnedRest` specifies |
| Player.PlayElement | src/workout.rs:315-361 | one element's beeps, sleeps and operator read, as `ElementTrace` specifies |
| Player.PlayParts | src/workout.rs:309-362 | the element loop from the resume point emits the elements' traces in order |
| Player.FindStart | src/workout.rs:288-305 | the `exes_left` countdown finds the (n+1)-th exercise, skipping rests, or none |
| Player.PlayRepetition | src/workout.rs:283-380 | Mid, Mid, 2 s, the elements, and the shortened set rest only when another repetition follows |
| Player.PlaySection | src/workout.rs:265-381 | the repetition loop of a section with the `first` flag, as `SectionPlay` specifies, including failure when no exercise is left to start from |
| Player.Play | src/workout.rs:228-395 | `do_workout` emits exactly the trace and outcome of `PlaySpec` |
| Player.SectionsPlayStops | src/workout.rs:305 | once a section fails, no later section plays |
| PlayerProperties.WarnedRestSleeps | src/workout.rs:351-358 | a rest sleeps exactly its duration, with or without the warning split |
| PlayerProperties.RestCues | src/workout.rs:346-359 | a rest beeps Mid exactly when more than 5 s are left, and never beeps High or waits for the operator |
| PlayerProperties.ExerciseCues | src/workout.rs:316-342 | an exercise starts High; it beeps Low exactly when timed, reads a line exactly when rep-based, and beeps Mid exactly when timed with a midbeep |
| PlayerProperties.ElementSleeps | src/workout.rs:315-361 | every element sleeps what the estimate counts for it |
| PlayerProperties.PartsSleeps | src/workout.rs:309-362 | a run of elements sleeps the sum of their estimated durations |
| PlayerProperties.SectionSleeps | src/workout.rs:274-381 | a section played in full sleeps each repetition's elements and 2 s, plus the set rest less 2 s between repetitions |
| PlayerProperties.PlaybackVersusEstimate | src/workout.rs:27-48 | with a set rest of at least 2 s (or none), a section plays its estimated length plus 2 s once (with a set rest) or per repetition (without) |
| PlayerProperties.LastRepetitionHasNoSetRest | src/workout.rs:364-365 | the last repetition of a section ends with its last element |
| PlayerProperties.NthExerciseIsNth | src/workout.rs:288-305 | none exactly when there are at most n exercises; otherwise the index holds an exercise with n exercises before it |
| PlayerProperties.LeadingRestsSkipped | src/workout.rs:288-305 | rests before the first exercise are skipped when starting from exercise 0 |
| PlayerProperties.LaterSectionsPlayInFull | src/workout.rs:264-308 | after the section where the start position took effect, every later section plays in full |
| PlayerProperties.SilentExactlyOnLengthPanic | src/workout.rs:234-238 | the estimate panics exactly when nothing at all is played; otherwise the High, Mid, Low opening comes first |
| PlayerProperties.CompletedEndsWithClosing | src/workout.rs:384-392 | a completed playback ends with 2 s, Low, Mid, High, 2 s |
| PlayerProperties.StartPastLastSetPanics | src/workout.rs:240-245 | a set number past the last panics right after the opening |
| PlayerProperties.StartPastCountsRefused | src/workout.rs:247-252 | a repetition or exercise number beyond the set's counts is refused right after the opening |
| PlayerProperties.FreshStartNeedsAnExercise | src/workout.rs:288-305 | starting afresh, a first section with no exercise fails after its entry wait and first cues |
| PlayerProperties.ExerciseOnePastLastFailsLate | src/workout.rs:247-305 | an exercise number equal to the count passes the `>` check and fails when the repetition starts |
| PlayerProperties.RepetitionOnePastLastMovesOn | src/workout.rs:268-274 | a repetition number equal to the count plays only the 6 s wait of that set, and the start position carries over to the next set |

## Left out

- Audio: playback through `rodio`, `BeepLevel::get_frequency`, the sine-wave samples and the beep queue of `src/main.rs` are left out. A beep is a `Beep(level)` event.
- The presampled table in `src/main.rs` is indexed by `level as usize`, so `High` plays the Low sample and `Low` the High one. The model records the level `do_workout` asks for.
- Console output is left out: `println!`/`print!`, the `Display` implementations and the "next:" and "s left" messages. Only beeps, sleeps and line reads are observable in the model.
- `thread::sleep` is a `Sleep(ms)` event. Wall-clock time and the time beeps take to play are not modelled.
- I/O failures of `stdout().flush()` and `stdin().read_line()` are not modelled. A line read is the `ReadLine` event and always succeeds.
- `main`'s handling of the file argument and `read_to_string` is left out. `StartFrom` models only the optional start argument.
- Durations are whole seconds, the only durations the loader builds.
- `Duration::div_f64(2.)` for the midpoint beep is floating point. It is modelled as exactly half, in milliseconds, which is exact for whole seconds.
- The banner's minutes (`as_secs_f64() / 60.`) are floating point and are left out. Only the fact that the banner evaluates `length` counts, which is its possible panic.
- WorkoutModel.SectionsLength: only the `reps - 1` underflow of `x0` sections is an error. These are left out:
  - overflow of the `u32` and `Duration` multiplications and sums, which is far beyond any text the format can hold;
  - a release build's wrap-around, which is silent when the section has no set rest.
- Loader.ParseDur: `mins * 60 + secs` overflowing `u64` after parsing is not modelled. With both fields at most two digits it cannot happen.
- Loader.LoadWorkout: the error messages are reduced to the `LoadError` values. The `anyhow` wrapping of parse errors is left out.
- Format.Render covers only the workouts the text format can express (`Canonical`), which excludes:
  - durations of 100 minutes or more;
  - names holding line breaks;
  - workout names ending in a carriage return, which `lines()` strips;
  - empty section names;
  - section names starting with whitespace;
  - section names starting with `rest`;
  - unnamed sections repeated more than once.

  The round-trip lemmas are stated for those workouts only.
- LoaderProperties.InvalidElementAnywhere: the lines before the bad element line are the rendering of a workout the format can express. Texts with other valid lines ahead of it, such as a header `Set x3` or an element with a two-digit `x05` count, are covered only at the line level, by `LaidThenInvalid` over classified lines.
- LoaderProperties.ExerciseSpellingFails: stated for the same rendered texts ahead of the `Exercise` line, and at the line level for any sections by `SectionsThenStrayLine`.
