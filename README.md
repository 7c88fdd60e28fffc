# Shang-Chi bus-fight surveillance dashboard — verified model

The dashboard (`src/App.tsx`) replays a scripted surveillance analysis of the
Shang-Chi bus-fight scene. Its data comes from the compiled-in dataset
`src/data/shangchiData.ts`. The one stateful piece is the **caption playback
sequencer** of the live-analysis tab. It has three fields:

- `isPlaying`;
- `currentCaptionIdx`;
- `visibleCaptions`.

Three things change those fields:

- a periodic interval callback, which runs only while playing;
- the play/pause button;
- the "Show All" button.

Around the sequencer the dashboard computes a few pure derivations from the
dataset:

- per-level counts of actors (`threatStats`) and of events (the severity tiles);
- the involved-actor chips, which look up an id with a fallback;
- the `F` + zero-padded frame label;
- labels made from the text before the first separator (`split(...)[0]`, optionally `.trim()`).

The project has four modules:

- `ShangChiData` (`shangchi_data.dfy`): the record types and the literal
  dataset (12 actors, 8 violence events, 9 predictions, 30 captions, 6
  weapon-inventory rows).
- `Dashboard` (`dashboard.dfy`): the pure derivations, each proved against an
  independent characterisation. Examples:
  - the counts equal multiset multiplicities, and the four counts sum to the
    number of actors;
  - the lookup returns the *first* match, and `None` exactly when no actor has
    the id;
  - the frame label round-trips to the frame number;
  - a split label stops exactly at the first separator.
- `CaptionSequencer` (`caption_sequencer.dfy`): the sequencer.
  - Each operation is first a step function on a `Snapshot` of the three
    fields, with lemmas about the steps and about runs of any sequence of
    controls.
  - The class `Sequencer` holds the three fields and updates them in place.
    Each of its methods is proved to perform exactly the matching step and to
    keep the invariant `Valid()`.
- `FixtureFacts` (`fixture_facts.dfy`): the well-formedness facts the UI relies
  on for the concrete dataset. Examples: 30 captions with strictly increasing
  frames 1..7800, ids `ACTOR-01`..`ACTOR-12` in order and distinct, every
  reference resolves, and the concrete counts.

Two behaviours of the sequencer are easy to miss when reading the markup:

- Show All (src/App.tsx:423) leaves `isPlaying` unchanged, so a running
  playback stops at the next tick (`ShowAllThenTickStops`).
- Every play press restarts from caption 0 (src/App.tsx:259-264,
  `ResumeRestarts`); pausing keeps the position, but playing again does not
  resume from it.

## Model

| member | source | states |
|---|---|---|
| CaptionSequencer.Sequencer.constructor | src/App.tsx:25-27 | the sequencer starts paused at caption 0 with the first five captions (`captions.slice(0, 5)`) visible, and satisfies the invariant |
| CaptionSequencer.Sequencer.Tick | src/App.tsx:30-41 | while paused nothing changes; while playing it sets the index to `min(idx+1, N-1)`, sets the visible list to `captions[0..idx'+1)`, and stops playback exactly when the index reaches `N-1`; the invariant is kept |
| CaptionSequencer.Sequencer.Toggle | src/App.tsx:259-264 | flips `isPlaying`; pausing keeps the index and the visible list; playing restarts at caption 0, with only that caption visible |
| CaptionSequencer.Sequencer.ShowAll | src/App.tsx:423 | every caption becomes visible and the index moves to `N-1`; `isPlaying` is untouched |
| CaptionSequencer.Sequencer.CurrentCaption | src/App.tsx:279 | in every reachable state the caption the control bar reads exists and is one of the visible ones |
| CaptionSequencer.Sequencer.FrameCounter | src/App.tsx:282 | the control-bar frame counter has at least five characters: `F` followed by digits whose value is the current caption's frame number |
| CaptionSequencer.Sequencer.Progress | src/App.tsx:274 | with `N >= 2` the progress fraction lies in [0, 1], and it is 1 exactly at the last caption |
| CaptionSequencer.Sequencer.Counter | src/App.tsx:420 | the `visible/N` counter never exceeds N and is at least 1; once synced it reads `idx+1` |
| CaptionSequencer.InitialStateWellFormed | src/App.tsx:25-27 | the mount state is well formed, with its index in range and `min(5, N)` captions visible, a prefix of all captions |
| CaptionSequencer.WellFormedBounds | src/App.tsx:26-41 | in every well-formed state the index is in `[0, N-1]` and the visible list is a non-empty prefix of the captions; a playing state is synced |
| CaptionSequencer.TickStepSpec | src/App.tsx:31-37 | a tick keeps the state well formed and is a no-op while paused; while playing it saturates the index at `N-1`, syncs the visible list, and stops exactly at the end |
| CaptionSequencer.ToggleStepSpec | src/App.tsx:259-264 | toggling keeps the state well formed and synced; pausing preserves the position; playing restarts at caption 0 |
| CaptionSequencer.ShowAllStepSpec | src/App.tsx:423 | Show All reveals all captions, moves to the last index, keeps the playback flag, and leaves the state synced |
| CaptionSequencer.ShowAllThenTickStops | src/App.tsx:34-36 | after Show All during playback, the next tick stays on the last caption and switches playback off |
| CaptionSequencer.ResumeRestarts | src/App.tsx:259-264 | pausing keeps the index, but pressing play again always returns to caption 0 with one caption visible |
| CaptionSequencer.PlaybackProgress | src/App.tsx:33-37 | with N >= 2, after k <= N-1 ticks from a fresh start, caption k is current, the first k+1 captions are visible, and playback is on exactly while k < N-1 |
| CaptionSequencer.StoppedStaysPut | src/App.tsx:31 | once stopped, any number of ticks changes nothing (no interval exists while paused) |
| CaptionSequencer.PlaybackStopsAtEnd | src/App.tsx:34-36 | with N >= 2, exactly N-1 ticks take a fresh start to the last caption with playback off, and every earlier tick leaves playback on |
| CaptionSequencer.SingleCaptionStopsAfterOneTick | src/App.tsx:34-36 | with a single caption, playback starts on the last caption and one tick stops it |
| CaptionSequencer.RunWellFormed | src/App.tsx:26-41 | every sequence of ticks, toggles and Show All keeps the state well formed, so the index stays in `[0, N-1]` |
| CaptionSequencer.RunKeepsSynced | src/App.tsx:33-37 | once the visible list equals `captions[0..idx+1)`, every later operation keeps it so |
| CaptionSequencer.ControlledRunIsSynced | src/App.tsx:259-264 | after any run in which play/pause or Show All was used at least once, the visible list is exactly `captions[0..idx+1)`, so its length is `idx+1` |
| CaptionSequencer.ProgressRatio | src/App.tsx:274 | with N >= 2, `idx/(N-1)` times `N-1` gives back `idx`; for an index in range it lies in [0, 1], is 0 exactly at the start and 1 exactly at the end |
| CaptionSequencer.ProgressMonotone | src/App.tsx:274 | the progress fraction strictly increases with the index |
| CaptionSequencer.ElapsedLabel | src/App.tsx:279 | the elapsed-time label is never empty: the caption's timestamp, or `00:00` when that is empty |
| Dashboard.CountLevel | src/App.tsx:59-62 | a filter-and-count is at most the length, and 0 exactly when the level does not occur |
| Dashboard.CountLevelIsMultiplicity | src/App.tsx:59-62 | the filter-and-count equals the multiplicity of the level in the multiset of levels |
| Dashboard.LevelCountsPartition | src/App.tsx:58-63 | the four per-level counts sum to the length of the sequence, because a level is one of four values |
| Dashboard.ThreatStatsOf | src/App.tsx:58-63 | each `threatStats` entry is the number of actors with exactly that level, and the four entries sum to the number of actors |
| Dashboard.SeverityTilesOf | src/App.tsx:624-626 | each severity tile counts the events of exactly that severity; the three tiles plus the low events make up all events |
| Dashboard.FindActor | src/App.tsx:676 | `find` gives no actor exactly when no actor has the id; otherwise it gives an actor with that id, namely the first such one |
| Dashboard.InvolvedActorLabel | src/App.tsx:675-679 | the chip starts with the id, and it is the bare id exactly when no actor has that id |
| Dashboard.LookupNamesActor | src/App.tsx:675-679 | with distinct ids, the chip for an actor's id is `id (name)` of that same actor |
| Dashboard.InvolvedActorLabels | src/App.tsx:675-681 | an event shows one chip per involved id, in order |
| Dashboard.DecimalString | src/App.tsx:282 | `String(n)` is a non-empty digit string without a leading zero, one character long exactly for n < 10 |
| Dashboard.DecimalRoundTrip | src/App.tsx:282 | reading back the decimal string of n gives n |
| Dashboard.LeadingZerosKeepValue | src/App.tsx:282 | leading zeros do not change the value of a digit string |
| Dashboard.PaddedDigits | src/App.tsx:439 | zero-padding a digit string keeps it a digit string with the same value |
| Dashboard.PadStart | src/App.tsx:439 | `padStart` yields length `max(|s|, width)`, ends with `s`, and has only the fill character before it |
| Dashboard.LabelLayout | src/App.tsx:439 | after the prefix, a padded label shows the fill and then the original digits |
| Dashboard.FrameLabel | src/App.tsx:439 | the frame label is `F` followed by `max(4, digits)` decimal digits: zeros, then `String(n)`; their value is n |
| Dashboard.ShortFrameLabel | src/App.tsx:439 | frame numbers below 10000 give labels of exactly five characters |
| Dashboard.ShiftOccurrence | src/App.tsx:343 | a separator occurrence in the tail of a string is an occurrence one position later in the string, and back |
| Dashboard.FirstSegment | src/App.tsx:343 | `split(sep)[0]` is a prefix of the string that contains no occurrence of the separator, and is followed by one unless it is the whole string |
| Dashboard.FirstSegmentOfJoin | src/App.tsx:343 | splitting `a + sep + b` gives back `a` when `a + sep` holds no earlier separator |
| Dashboard.FirstSegmentAtChar | src/App.tsx:574 | splitting at a one-character separator stops at the first occurrence of that character |
| Dashboard.LeadingSpace | src/App.tsx:574 | the number of white-space characters at the start of the string: all of them are white space, and the next one is not |
| Dashboard.TrailingSpaceFrom | src/App.tsx:574 | the start of the white-space run that ends the string, not going below the given bound: everything from there on is white space, and the character before it is not |
| Dashboard.Trim | src/App.tsx:574 | `trim()` gives an infix whose surroundings are all white space and whose ends are not white space |
| Dashboard.TrimIdempotent | src/App.tsx:574 | trimming twice is trimming once |
| Dashboard.StrippedKeepsOut | src/App.tsx:574 | trimming a string without a character gives a string without it |
| Dashboard.WeaponChip | src/App.tsx:337-341 | the card shows no weapon chip exactly for "None" and "None (Martial Arts)"; otherwise the chip is the weapon up to its first space |
| Dashboard.BehaviorSummary | src/App.tsx:343 | the behaviour label is the behaviour up to its first " / ", or all of it |
| Dashboard.RoleSummary | src/App.tsx:561 | the role label is the role up to its first " / ", or all of it |
| Dashboard.LabelBadge | src/App.tsx:564 | the badge is the label up to its first " — ", or all of it |
| Dashboard.WeaponCell | src/App.tsx:568-575 | the table shows "Unarmed" for "None"; otherwise it shows the text before the weapon's first "(" with the white space on both ends removed: it holds no "(" and neither starts nor ends with white space |
| FixtureFacts.FramesStepUpIsIncreasing | src/data/shangchiData.ts:420-449 | frame numbers that step up between neighbours increase between any two positions |
| FixtureFacts.CaptionsAreEnough | src/data/shangchiData.ts:419-450 | there are 30 captions, so N >= 2; the mount state is well formed with five captions shown |
| FixtureFacts.CaptionFramesIncrease | src/data/shangchiData.ts:420-449 | caption frames start at 1, end at 7800 and strictly increase |
| FixtureFacts.CaptionFrameLabelsHaveFiveCharacters | src/data/shangchiData.ts:420-449 | every caption's frame label is `F` and four digits |
| FixtureFacts.FixturePlaysThrough | src/data/shangchiData.ts:419-450 | pressing play on the mounted dashboard and letting 29 ticks fire ends on the last caption, stopped, with all 30 visible |
| FixtureFacts.ActorIdsInOrder | src/data/shangchiData.ts:55-224 | the actor ids are `ACTOR-01` … `ACTOR-12`, in order |
| FixtureFacts.ActorIdNumbers | src/data/shangchiData.ts:55-224 | the number in the i-th actor's id is i+1 |
| FixtureFacts.ActorIdsDistinct | src/data/shangchiData.ts:55-224 | no two actors share an id |
| FixtureFacts.IdInListIsFound | src/App.tsx:676 | an id that occurs among the actors' ids is found by the lookup |
| FixtureFacts.InvolvedActorsResolve | src/data/shangchiData.ts:229-318 | every involved-actor id of every event names an existing actor |
| FixtureFacts.ActorThreatLevels | src/data/shangchiData.ts:55-224 | the actors' threat levels, in order |
| FixtureFacts.CriticalThreatCount | src/data/shangchiData.ts:55-224 | three actors are critical |
| FixtureFacts.HighThreatCount | src/data/shangchiData.ts:55-224 | four actors are high |
| FixtureFacts.MediumThreatCount | src/data/shangchiData.ts:55-224 | no actor is medium |
| FixtureFacts.LowThreatCount | src/data/shangchiData.ts:55-224 | five actors are low |
| FixtureFacts.ThreatCounts | src/data/shangchiData.ts:55-224 | the threat tiles show critical 3, high 4, medium 0 and low 5 |
| FixtureFacts.EventIdsAreOneToEight | src/data/shangchiData.ts:229-318 | there are eight events with ids 1..8 in ascending order |
| FixtureFacts.EventSeverities | src/data/shangchiData.ts:229-318 | the events' severities, in order |
| FixtureFacts.CriticalSeverityCount | src/data/shangchiData.ts:229-318 | five events are critical |
| FixtureFacts.HighSeverityCount | src/data/shangchiData.ts:229-318 | two events are high |
| FixtureFacts.MediumSeverityCount | src/data/shangchiData.ts:229-318 | one event is medium |
| FixtureFacts.SeverityCounts | src/data/shangchiData.ts:229-318 | the severity tiles show critical 5, high 2 and medium 1 |
| FixtureFacts.WeaponSummaryWellFormed | src/data/shangchiData.ts:455-462 | every weapon-inventory count is positive, and every holder names an existing actor |
| FixtureFacts.FirstFrameLabel | src/data/shangchiData.ts:420 | the first caption is labelled `F0001` |
| FixtureFacts.LastFrameLabel | src/data/shangchiData.ts:449 | the last caption is labelled `F7800` |

## Left out

- React rendering, Tailwind classes, tab navigation (`activeTab`) and the train/test selector (`videoMode`): presentation only.
- Recharts charts, lucide icons and the YouTube embed: foreign libraries and external content.
- `setInterval`/`clearInterval` and the 2000 ms period: each firing of the interval is one `Tick` call, and the interval's lifetime is modelled by a tick changing nothing while paused.
- The auto-scroll effect (src/App.tsx:43-47): it only touches the DOM.
- Floating-point display: the progress bar's percentage string, `confidence * 100` with `toFixed`, pie-slice percentages and the `modelInfo` metrics. The progress fraction is modelled as an exact real.
- Hard-coded display constants (`weaponTypeData`, `behaviorData`, the fixed "12/8/8" tiles, "/ 04:30" and "/ 8100"): they are not computed from anything.
- `modelInfo`, `captorInfo` and `timeSeriesAnalysis`: literal display data that nothing computes with.
- src/data/oldboyData.ts: nothing imports it.
- Free-text fields (event descriptions and caption texts, the prediction narratives `currentAction`, `predictedNextMove`, `lstmOutput` and `reasoning`): nothing computes with them, so the records leave them out. The actors' `label` field is named `labelText`.
- CaptionSequencer.Sequencer.Progress: requires at least two captions, because the source divides by `captions.length - 1` with no guard; with one caption the bar's width is not a number.
- CaptionSequencer.PlaybackProgress: stated for at least two captions. The one-caption case is `SingleCaptionStopsAfterOneTick`.
- Dashboard.FirstSegment: requires a non-empty separator. Every call site passes a literal non-empty one; `split('')` is not modelled.
- Dashboard.IsTrimmable: the white-space set of `String.prototype.trim` is written out by code point; JavaScript strings are UTF-16, whereas Dafny's are sequences of Unicode scalar values.
- JavaScript's `frameNum || 0` fallback: a frame number is a `nat` in the model, so `0` and a missing number coincide.
