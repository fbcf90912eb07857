# MIDI track remover: track selection and catalog, modelled in Dafny

The application loads MIDI files into a catalog, shows the tracks of the
selected file, and writes for each cataloged file a copy that keeps (or
drops) the tracks the user ticked, with the file's first tempo re-attached
to the first remaining track. This project models the logic behind that
GUI: the track filter, the per-track summary, tempo lookup and
re-injection, the catalog (`MidiProcessorModel`) and the presenter
(`MidiProcessorPresenter`) with its batch processing.

Files, one module each:

- `wrappers.dfy` (`Wrappers`): `Option`, `Result` (a value or an exception text) and `Outcome`.
- `midi.dfy` (`Midi`): the abstract document. A message is a `track_name` (with its name), a `set_tempo` (with its tempo in microseconds per beat) or any other type tag (never one of those two); a track is a sequence of messages; a document is ticks per beat plus tracks. A file path is given as directory, stem and suffix.
- `track_filter.dfy` (`TrackFilter`): the keep/remove filter as a specification function `Filter` and its properties.
- `track_summary.dfy` (`TrackSummary`): track name and message-type tally, and their properties.
- `tempo.dfy` (`Tempo`): first tempo in track-major, message-minor order, the 99 BPM default, and appending the tempo to the first track.
- `models.dfy` (`Models`): the catalog class, its record and status types.
- `presenters.dfy` (`Presenters`): the loops of `_process_tracks` and `_analyze_tracks` as methods proved against `Filter` and the summary functions; the presenter class, whose view calls are recorded in `shown` and whose file writes are recorded in `saves`.

Parsing is an oracle `parse: FilePath -> Result<Doc>` passed to every
operation that opens a file. The model assumes that a path parses the same
way throughout one operation, so the second parse done by `get_tempo`
inside `process_files` sees the same document. Writing a file is an oracle `save: SaveRequest -> Outcome`, and
whether the output folder exists or can be created is the `ready` argument
of `SetOutputFolder`.

Behaviour of the code worth noting:

- A track's name is that of its *last* `track_name` message (each one overwrites the previous), not the first.
- `process_files` does not survive every failure: a target path that is not in the catalog makes the status assignment inside the `except` handler raise again, so the error leaves `process_files` and the rest of the batch is skipped (`completed` is false). The GUI only passes cataloged paths.
- A first tempo of 0 makes the BPM conversion divide by zero; `process_files` catches it and records `Error: float division by zero`.
- Re-reading the tempo of a written file does not always give the preserved tempo: the appended message comes after any `set_tempo` already in the first surviving track (`ReadBackCanDiffer`). It does when track 0 survives (`FirstTrackKeptReadsBackTempo`).
- The presenter's own `set_output_folder`, the one the GUI calls, stores the folder without the existence check of the catalog's `set_output_folder`.

## Model

| member | source | states |
|---|---|---|
| TrackFilter.Filter | presenters.py:136-142 | the result is `None` exactly when no track index passes the selection; otherwise it has the source's ticks per beat and between 1 and all of the source's tracks |
| TrackFilter.SurvivingIndicesSpec | presenters.py:138-139 | the surviving positions are exactly those below the track count that are listed (keep) or not listed (remove), strictly increasing |
| TrackFilter.KeptIsIndexed | presenters.py:138-140 | the output tracks are the source tracks at the surviving positions, one for one and in original order |
| TrackFilter.EmptyExactlyWhenNoneSurvive | presenters.py:138-142 | nothing is kept if and only if no position passes the selection |
| TrackFilter.KeepAndRemovePartition | presenters.py:129-140 | for one index list, the keep output and the remove output together hold every source track exactly once (as multisets), so their lengths add up to the track count |
| TrackFilter.RemoveNothingKeepsAll | presenters.py:133-140 | removing an empty selection returns all tracks unchanged and in order |
| TrackFilter.RemoveEveryTrackIsEmpty | presenters.py:139-142 | removing a selection that lists every track index gives `None` |
| TrackFilter.OnlyMembershipInRangeMatters | presenters.py:139 | two index lists that agree on which track positions they contain give the same output in both modes |
| TrackFilter.ExtraIndexIgnored | presenters.py:139 | an out-of-range or duplicated index changes neither output |
| TrackSummary.NameIsLastTrackName | presenters.py:116-120 | the name is that of the last `track_name` message, or "Unnamed" when there is none |
| TrackSummary.TallyCountsKinds | presenters.py:117-121 | the tally maps each message type that occurs, and only those, to its number of occurrences |
| TrackSummary.CountsSumToLength | presenters.py:117-121 | the counts of a track's tally add up to its number of messages |
| Tempo.BpmToTempo | presenters.py:83 | the tempo for a BPM value is 60 000 000 / BPM rounded to the nearest microsecond, a tie going to the even value as Python's `round` does |
| Tempo.FirstTempoNoneIff | models.py:35-44 | no tempo is found exactly when the file has no `set_tempo` message |
| Tempo.FirstTempoIsEarliest | models.py:35-42 | the tempo found is that of the earliest `set_tempo` message, tracks in order and messages in order within each |
| Tempo.NoTempoWritesDefault | presenters.py:72-74 | a file without a tempo gets the tempo of 99 BPM |
| Tempo.ReadBackAfterInject | presenters.py:83 | after appending a tempo to the first track, the first tempo of the file is the appended one unless that track already has a `set_tempo` |
| Models.StatusText | presenters.py:86-93 | a status reads as an error ("Error: ...") exactly for the no-tracks and exception outcomes |
| Models.MidiProcessorModel.constructor | models.py:15-18 | an empty catalog, no current document, no output folder |
| Models.MidiProcessorModel.SetOutputFolder | models.py:20-29 | when the folder exists or is created the folder is set and true returned; otherwise it is cleared and false returned |
| Models.MidiProcessorModel.GetTempo | models.py:31-44 | returns the parse error, the division-by-zero error for a zero first tempo, nothing when there is no tempo, or the first tempo |
| Models.MidiProcessorModel.AddMidiFile | models.py:47-54 | on a successful parse stores and returns `{path, track count, Pending}`, replacing an earlier record in place; on failure returns `None` and changes nothing |
| Models.MidiProcessorModel.RemoveMidiFile | models.py:56-59 | deletes only the record of `path` (no-op when absent) and clears the current document exactly when it was loaded from `path` |
| Models.MidiProcessorModel.SetCurrentMidi | models.py:61-67 | the current document becomes the parsed file and is returned, or becomes `None` and `None` is returned |
| Models.MidiProcessorModel.ClearAll | models.py:69-71 | empties the catalog and the selection and keeps the output folder |
| Presenters.ProcessTracks | presenters.py:125-142 | the appending loop computes `Filter` |
| Presenters.AnalyzeTracks | presenters.py:112-123 | one summary per track, in order, with index `i`, the track's name and its type tally |
| Presenters.AttemptOne | presenters.py:69-94 | a path's status is the parse error, the zero-tempo error, `NoTracks` exactly when no track survives, or otherwise the outcome of a write that always happens (so `Success` exactly when that write succeeds); a write goes to `stem + "_modified" + suffix` in the output folder with the source's ticks per beat, the surviving tracks and the preserved tempo appended to the first one |
| Presenters.AfterBatch | presenters.py:86-93 | processing sets the status of the processed paths only; keys, paths and track counts stay |
| Presenters.FileCountIsCatalogSize | presenters.py:103-107 | the count shown is the number of cataloged files |
| Presenters.AddedFilesSpec | presenters.py:29-39 | after adding, exactly the loadable added paths are new or replaced with Pending records; all other records are unchanged |
| Presenters.LoadErrorsExactly | presenters.py:30-37 | an error is shown for exactly the added paths that fail to load |
| Presenters.FirstTrackKeptReadsBackTempo | presenters.py:72-85 | when track 0 survives, the written file's first tempo is the preserved tempo |
| Presenters.KeepMiddleOfThree | presenters.py:76-86 | keeping track 1 of three writes a file with only that track plus the appended tempo, and succeeds when the write does |
| Presenters.ReadBackCanDiffer | presenters.py:72-85 | a concrete file whose written copy reads back a different tempo than the one preserved |
| Presenters.MidiProcessorPresenter.constructor | presenters.py:17-20 | a presenter over the given catalog with nothing shown and nothing written |
| Presenters.MidiProcessorPresenter.RefreshView | presenters.py:103-110 | shows the rows in insertion order and their number, and an empty track list when nothing is selected |
| Presenters.MidiProcessorPresenter.AddFiles | presenters.py:29-39 | adds each path in order, shows one error per path that fails to load, then refreshes |
| Presenters.MidiProcessorPresenter.RemoveFiles | presenters.py:41-44 | removes exactly the given paths, keeps the order of the rest, clears the selection when it came from one of them, then refreshes |
| Presenters.MidiProcessorPresenter.SetOutputFolder | presenters.py:46-48 | stores the folder as given and shows it |
| Presenters.MidiProcessorPresenter.SelectFile | presenters.py:50-56 | makes the parsed file current and shows its track summaries, or clears the selection and shows an error |
| Presenters.MidiProcessorPresenter.ClearAll | presenters.py:99-101 | empties catalog and selection and shows an empty file list, a count of 0 and an empty track list |
| Presenters.MidiProcessorPresenter.ProcessPath | presenters.py:70-94 | the status computed for one path is that of `AttemptOne`, and exactly its write is requested |
| Presenters.MidiProcessorPresenter.RunBatch | presenters.py:67-95 | every target gets the status of its attempt and every write comes from a target; the batch completes exactly when all targets are cataloged |
| Presenters.MidiProcessorPresenter.ProcessFiles | presenters.py:58-97 | without output folder or without selected tracks: one error, no status change, no write; otherwise the targets are the given paths or all cataloged ones, only their statuses change, and completion is reported after a refresh |

## Left out

- The GUI (views.py, app.py) and the view itself: view calls are recorded as `ViewEvent`s.
- Logging (`setup_logging` and the `logging` calls): no effect on the state.
- MIDI parsing and writing: parse and write are oracles; the written bytes are not modelled.
- Message fields other than a track name and a tempo (delta times, channels, data bytes): tracks are carried over whole, so nothing is lost.
- The BPM conversions: `get_tempo` returns the tempo in microseconds instead of BPM, and a found tempo is written back unchanged, although the source converts it to a float BPM and back with rounding.
- A batch that reads a file it has written itself: `parse` is one fixed oracle for the whole batch, so the model does not capture that a target inside the output folder (say `a_modified.mid`, next to `a.mid`, both cataloged by a folder scan) may be overwritten by an earlier write of the same batch and then parse to the new content, which depends on set iteration order.
- Floating point in the BPM conversion: `BpmToTempo` treats 60 000 000 / BPM as an exact quotient before rounding; the source computes it in floating point. At 99 BPM, the only value the application converts, both give 606 061.
- Splitting a path into stem and suffix: a `FilePath` is given by its parts.
- Python `set` iteration order: the batch and `remove_files` take paths in an arbitrary order.
- The order in which a summary lists message types: the tally is a map.
- Sharing of objects: the written file's first track is the same list object as a track of the freshly parsed source, and records are updated in place; the model works on values, which is equivalent because neither object is used afterwards.
- `_process_tracks` called with neither a keep list nor a remove list (a `TypeError` in the source): its only caller always passes one.
- `MidiFileInfo.error_message`: never written by the application; it stays empty in the model.
- Presenters.MidiProcessorPresenter.RunBatch: writes are stated as a set (which targets asked for them), not their order or multiplicity, since the order follows set iteration; when the batch stops early only "some processed subset of the targets" is stated.
- Presenters.MidiProcessorPresenter.ProcessFiles: the same weakening as `RunBatch` for writes and for a batch that stops early.
