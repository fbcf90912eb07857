/**
 * The presenter (presenters.py): it turns user intents into catalog
 * updates, filtered files and calls on the view. View calls are recorded in
 * `shown`, file writes in `saves`; parsing and writing are oracles passed in
 * by the caller.
 */
module Presenters {
  import opened Wrappers
  import opened Midi
  import opened TrackFilter
  import opened TrackSummary
  import opened Tempo
  import opened Models

  /** One row of the file list: path, track count and status. */
  datatype FileRow = FileRow(path: FilePath, trackCount: nat, status: Status)

  /** The error messages the presenter shows. */
  datatype Notice =
    | OutputFolderUnset         // "Please set output folder first"
    | NoTracksSelected          // "No tracks selected"
    | LoadFailed(p: FilePath)   // "Error loading file <path>", when adding
    | SelectFailed(p: FilePath) // "Error loading file: <path>", when selecting

  /** A call on the view. */
  datatype ViewEvent =
    | FileListShown(rows: seq<FileRow>)
    | FileCountShown(count: nat)
    | TrackListShown(tracks: seq<Summary>)
    | OutputFolderShown(folder: Option<Dir>)
    | ErrorShown(notice: Notice)
    | ProcessingComplete  // the success message shown at the end of a batch

  /** A request to write `doc` as file `name` in directory `folder`. */
  datatype SaveRequest = SaveRequest(folder: Dir, name: string, doc: Doc)

  /** The name of the file written for `p`: its stem, "_modified", its suffix. */
  function OutputName(p: FilePath): string
  {
    p.stem + "_modified" + p.suffix
  }

  // ---------------------------------------------------------------------------
  // The two static helpers, as loops proved against their specifications.

  /**
   * `_process_tracks`: walks the tracks in order and appends each one that
   * survives the selection to a new document with the same ticks per beat;
   * `None` when nothing was appended.
   */
  method ProcessTracks(midi: Doc, sel: Selection) returns (r: Option<Doc>)
    ensures r == Filter(midi, sel)
  {
    var kept: seq<Track> := [];
    for i := 0 to |midi.tracks|
      invariant kept == Kept(midi.tracks[..i], sel)
    {
      assert midi.tracks[..i + 1][..i] == midi.tracks[..i];
      if (sel.Keep? && i in sel.indices) || (sel.Remove? && i !in sel.indices) {
        kept := kept + [midi.tracks[i]];
      }
    }
    assert midi.tracks[..|midi.tracks|] == midi.tracks;
    r := if kept == [] then None else Some(Doc(midi.ticksPerBeat, kept));
  }

  /** The summaries of all tracks, one per track, in order. */
  function Summaries(tracks: seq<Track>): seq<Summary>
  {
    seq(|tracks|, i requires 0 <= i < |tracks| => Summarize(i, tracks[i]))
  }

  /**
   * `_analyze_tracks`: for each track its index, the name of its last
   * `track_name` message (default "Unnamed") and the count of each message type.
   */
  method AnalyzeTracks(tracks: seq<Track>) returns (info: seq<Summary>)
    ensures |info| == |tracks|
    ensures forall i :: 0 <= i < |tracks| ==>
              info[i].index == i && info[i].name == NameOf(tracks[i]) && info[i].counts == Tally(tracks[i])
  {
    info := [];
    for i := 0 to |tracks|
      invariant |info| == i
      invariant forall k :: 0 <= k < i ==> info[k] == Summarize(k, tracks[k])
    {
      var track := tracks[i];
      var name := Unnamed;
      var counts: map<string, nat> := map[];
      for j := 0 to |track|
        invariant name == NameOf(track[..j])
        invariant counts == Tally(track[..j])
      {
        var msg := track[j];
        assert track[..j + 1][..j] == track[..j];
        if msg.TrackName? {
          name := msg.name;
        }
        counts := counts[Kind(msg) := CountIn(counts, Kind(msg)) + 1];
      }
      assert track[..|track|] == track;
      info := info + [Summary(i, name, counts)];
    }
  }

  // ---------------------------------------------------------------------------
  // One path of a batch.

  /** What processing one path produced: its new status and the write it asked for, if any. */
  datatype Attempt = Attempt(status: Status, save: Option<SaveRequest>)

  /**
   * The work `process_files` does for one path: parse it, look up its first
   * tempo (parsing again), filter its tracks, append the tempo to the first
   * surviving track and write the result; any exception becomes a `Failed`
   * status.
   */
  function AttemptOne(parse: FilePath -> Result<Doc>, save: SaveRequest -> Outcome,
                      folder: Dir, sel: Selection, p: FilePath): (a: Attempt)
    ensures parse(p).Err? ==> a == Attempt(Failed(parse(p).detail), None)
    ensures parse(p).Ok? && FirstTempo(parse(p).value.tracks) == Some(0) ==>
              a == Attempt(Failed(ZeroDivision), None)
    ensures parse(p).Ok? && FirstTempo(parse(p).value.tracks) != Some(0) ==>
              (a.status == NoTracks <==> forall i :: 0 <= i < |parse(p).value.tracks| ==> !Survives(sel, i))
    ensures a.status == Success ==> a.save.Some? && save(a.save.value).Pass?
    ensures (parse(p).Ok? && FirstTempo(parse(p).value.tracks) != Some(0) &&
             exists i :: 0 <= i < |parse(p).value.tracks| && Survives(sel, i))
            ==> a.save.Some?
    ensures a.save.Some? ==>
              parse(p).Ok? &&
              a.status == (if save(a.save.value).Pass? then Success else Failed(save(a.save.value).detail)) &&
              a.save.value.folder == folder && a.save.value.name == p.stem + "_modified" + p.suffix &&
              a.save.value.doc.ticksPerBeat == parse(p).value.ticksPerBeat &&
              0 < |a.save.value.doc.tracks| == |Kept(parse(p).value.tracks, sel)| &&
              a.save.value.doc.tracks[0] ==
                Kept(parse(p).value.tracks, sel)[0] + [SetTempo(TempoToWrite(parse(p).value))] &&
              a.save.value.doc.tracks[1..] == Kept(parse(p).value.tracks, sel)[1..]
  {
    match parse(p)
    case Err(e) => Attempt(Failed(e), None)
    case Ok(doc) =>
      match TempoLookup(parse(p))
      case Err(e) => Attempt(Failed(e), None)
      case Ok(_) =>
        match Filter(doc, sel)
        case None => Attempt(NoTracks, None)
        case Some(out) =>
          var req := SaveRequest(folder, OutputName(p), Inject(out, TempoToWrite(doc)));
          match save(req)
          case Pass => Attempt(Success, Some(req))
          case Fail(e) => Attempt(Failed(e), Some(req))
  }

  /** The write an attempt asked for, as a list of zero or one requests. */
  function Saved(a: Attempt): seq<SaveRequest>
  {
    if a.save.Some? then [a.save.value] else []
  }

  /** Every write in `news` was asked for by one of the paths in `ps`. */
  ghost predicate WritesFrom(news: seq<SaveRequest>, ps: set<FilePath>,
                             parse: FilePath -> Result<Doc>, save: SaveRequest -> Outcome, folder: Dir, sel: Selection)
  {
    forall r :: r in news ==> exists p :: p in ps && AttemptOne(parse, save, folder, sel, p).save == Some(r)
  }

  /** Every write asked for by a path in `ps` is in `news`. */
  ghost predicate WritesCover(news: seq<SaveRequest>, ps: set<FilePath>,
                              parse: FilePath -> Result<Doc>, save: SaveRequest -> Outcome, folder: Dir, sel: Selection)
  {
    forall p :: p in ps && AttemptOne(parse, save, folder, sel, p).save.Some? ==>
      AttemptOne(parse, save, folder, sel, p).save.value in news
  }

  /** The paths a batch works on: the given ones, or every cataloged path when none are given. */
  function Targets(selectedPaths: Option<set<FilePath>>, cataloged: set<FilePath>): set<FilePath>
  {
    if selectedPaths.Some? && selectedPaths.value != {} then selectedPaths.value else cataloged
  }

  /** The catalog after the paths in `done` have been processed. */
  function AfterBatch(files: map<FilePath, FileInfo>, done: set<FilePath>,
                      parse: FilePath -> Result<Doc>, save: SaveRequest -> Outcome,
                      folder: Dir, sel: Selection): (r: map<FilePath, FileInfo>)
    ensures r.Keys == files.Keys
    ensures forall p :: p in files ==>
              r[p].path == files[p].path && r[p].trackCount == files[p].trackCount &&
              r[p].status == if p in done then AttemptOne(parse, save, folder, sel, p).status else files[p].status
  {
    map p | p in files :: if p in done then files[p].(status := AttemptOne(parse, save, folder, sel, p).status) else files[p]
  }

  // ---------------------------------------------------------------------------
  // Adding files and refreshing the view.

  /** The file-list rows, in display order. */
  function Rows(files: map<FilePath, FileInfo>, order: seq<FilePath>): (r: seq<FileRow>)
    requires forall p :: p in order ==> p in files
    ensures |r| == |order|
  {
    if order == [] then []
    else [FileRow(files[order[0]].path, files[order[0]].trackCount, files[order[0]].status)] + Rows(files, order[1..])
  }

  /** The view calls of `_refresh_view`. */
  function RefreshEvents(files: map<FilePath, FileInfo>, order: seq<FilePath>, current: Option<Loaded>): seq<ViewEvent>
    requires forall p :: p in order ==> p in files
  {
    var rows := Rows(files, order);
    [FileListShown(rows), FileCountShown(|rows|)] + if current.None? then [TrackListShown([])] else []
  }

  /** The records after adding `paths` one by one. */
  function AddedFiles(files: map<FilePath, FileInfo>, parse: FilePath -> Result<Doc>, paths: seq<FilePath>): map<FilePath, FileInfo>
    decreases |paths|
  {
    if paths == [] then files
    else
      var before := AddedFiles(files, parse, paths[..|paths| - 1]);
      var p := paths[|paths| - 1];
      if parse(p).Ok? then before[p := NewInfo(p, parse(p).value)] else before
  }

  /** The display order after adding `paths` one by one: each new path is appended once. */
  function AddedOrder(order: seq<FilePath>, parse: FilePath -> Result<Doc>, paths: seq<FilePath>): seq<FilePath>
    decreases |paths|
  {
    if paths == [] then order
    else
      var before := AddedOrder(order, parse, paths[..|paths| - 1]);
      var p := paths[|paths| - 1];
      if parse(p).Ok? && p !in before then before + [p] else before
  }

  /** One error notice per path that failed to load, in order. */
  function LoadErrors(parse: FilePath -> Result<Doc>, paths: seq<FilePath>): seq<ViewEvent>
    decreases |paths|
  {
    if paths == [] then []
    else
      var p := paths[|paths| - 1];
      LoadErrors(parse, paths[..|paths| - 1]) + if parse(p).Err? then [ErrorShown(LoadFailed(p))] else []
  }

  /** `s` without the elements of `drop`, the rest in order. */
  function Filtered(s: seq<FilePath>, drop: set<FilePath>): (r: seq<FilePath>)
    ensures forall q :: q in r <==> q in s && q !in drop
  {
    if s == [] then []
    else (if s[0] in drop then [] else [s[0]]) + Filtered(s[1..], drop)
  }

  class MidiProcessorPresenter {
    const model: MidiProcessorModel
    /** Every call made on the view, in order. */
    var shown: seq<ViewEvent>
    /** Every file write requested, in order. */
    var saves: seq<SaveRequest>

    constructor (model: MidiProcessorModel)
      ensures this.model == model && shown == [] && saves == []
    {
      this.model := model;
      shown, saves := [], [];
    }

    /** `_refresh_view`: shows the file rows and their number, and an empty track list when nothing is selected. */
    method RefreshView()
      requires model.Valid()
      modifies this`shown
      ensures shown == old(shown) + RefreshEvents(model.files, model.order, model.current)
    {
      var rows := Rows(model.files, model.order);
      shown := shown + [FileListShown(rows), FileCountShown(|rows|)];
      if model.current.None? {
        shown := shown + [TrackListShown([])];
      }
    }

    /** `add_files`: adds each path in turn, reporting each one that fails to load, then refreshes. */
    method AddFiles(parse: FilePath -> Result<Doc>, paths: seq<FilePath>)
      requires model.Valid()
      modifies model`files, model`order, this`shown
      ensures model.Valid()
      ensures model.files == AddedFiles(old(model.files), parse, paths)
      ensures model.order == AddedOrder(old(model.order), parse, paths)
      ensures shown == old(shown) + LoadErrors(parse, paths) + RefreshEvents(model.files, model.order, model.current)
    {
      for i := 0 to |paths|
        invariant model.Valid()
        invariant model.files == AddedFiles(old(model.files), parse, paths[..i])
        invariant model.order == AddedOrder(old(model.order), parse, paths[..i])
        invariant shown == old(shown) + LoadErrors(parse, paths[..i])
      {
        assert paths[..i + 1][..i] == paths[..i];
        var info := model.AddMidiFile(parse, paths[i]);
        if info.None? {
          shown := shown + [ErrorShown(LoadFailed(paths[i]))];
        }
      }
      assert paths[..|paths|] == paths;
      RefreshView();
    }

    /** `remove_files`: removes each path of the set, then refreshes. */
    method RemoveFiles(paths: set<FilePath>)
      requires model.Valid()
      modifies model`files, model`order, model`current, this`shown
      ensures model.Valid()
      ensures model.files == old(model.files) - paths
      ensures model.order == Filtered(old(model.order), paths)
      ensures model.current ==
                if old(model.current).Some? && old(model.current).value.source in paths then None else old(model.current)
      ensures shown == old(shown) + RefreshEvents(model.files, model.order, model.current)
    {
      var remaining := paths;
      ghost var removed: set<FilePath> := {};
      ghost var files0, order0, current0 := model.files, model.order, model.current;
      FilteredNothing(order0);
      while remaining != {}
        invariant remaining + removed == paths && remaining !! removed
        invariant model.Valid()
        invariant model.files == files0 - removed
        invariant model.order == Filtered(order0, removed)
        invariant model.current == if current0.Some? && current0.value.source in removed then None else current0
        invariant shown == old(shown)
        decreases remaining
      {
        var p :| p in remaining;
        FilteredWithout(order0, removed, p);
        MinusStep(files0, removed, p);
        model.RemoveMidiFile(p);
        remaining, removed := remaining - {p}, removed + {p};
      }
      RefreshView();
    }

    /** `set_output_folder` of the presenter: stores the folder as given, without the catalog's check, and shows it. */
    method SetOutputFolder(path: Option<Dir>)
      modifies model`outputFolder, this`shown
      ensures model.outputFolder == path
      ensures shown == old(shown) + [OutputFolderShown(path)]
    {
      model.outputFolder := path;
      shown := shown + [OutputFolderShown(path)];
    }

    /** `select_file`: loads the file as the current document and shows its track summaries, or an error. */
    method SelectFile(parse: FilePath -> Result<Doc>, path: FilePath)
      modifies model`current, this`shown
      ensures model.current == if parse(path).Ok? then Some(Loaded(path, parse(path).value)) else None
      ensures parse(path).Ok? ==> shown == old(shown) + [TrackListShown(Summaries(parse(path).value.tracks))]
      ensures parse(path).Err? ==> shown == old(shown) + [ErrorShown(SelectFailed(path))]
    {
      var midi := model.SetCurrentMidi(parse, path);
      if midi.Some? {
        var info := AnalyzeTracks(midi.value.tracks);
        assert info == Summaries(midi.value.tracks);
        shown := shown + [TrackListShown(info)];
      } else {
        shown := shown + [ErrorShown(SelectFailed(path))];
      }
    }

    /** `clear_all`: empties the catalog and the selection, then refreshes. */
    method ClearAll()
      requires model.Valid()
      modifies model`files, model`order, model`current, this`shown
      ensures model.Valid()
      ensures model.files == map[] && model.order == [] && model.current == None
      ensures shown == old(shown) + [FileListShown([]), FileCountShown(0), TrackListShown([])]
    {
      model.ClearAll();
      RefreshView();
    }

    /**
     * The body of the `process_files` loop for one path, up to the status
     * update: parse, look up the tempo, filter, append the tempo and write.
     */
    method ProcessPath(parse: FilePath -> Result<Doc>, save: SaveRequest -> Outcome,
                       folder: Dir, sel: Selection, p: FilePath) returns (status: Status)
      modifies this`saves
      ensures status == AttemptOne(parse, save, folder, sel, p).status
      ensures saves == old(saves) + Saved(AttemptOne(parse, save, folder, sel, p))
    {
      var parsed := parse(p);
      if parsed.Err? {
        return Failed(parsed.detail);
      }
      var tempo := model.GetTempo(parse, p);
      if tempo.Err? {
        return Failed(tempo.detail);
      }
      var originalTempo := if tempo.value.None? then DefaultTempo() else tempo.value.value;
      var newMidi := ProcessTracks(parsed.value, sel);
      if newMidi.None? {
        return NoTracks;
      }
      var req := SaveRequest(folder, OutputName(p), Inject(newMidi.value, originalTempo));
      saves := saves + [req];
      var written := save(req);
      status := if written.Pass? then Success else Failed(written.detail);
    }

    /**
     * The loop of `process_files` over `targets`, in an arbitrary order
     * (the source iterates a set). Each path's status becomes the outcome
     * of its attempt. A target that is not in the catalog cannot receive a
     * status: the lookup fails inside the exception handler, the error
     * escapes and the loop stops there (`completed` is false), after
     * whatever that path had already written.
     */
    method RunBatch(parse: FilePath -> Result<Doc>, save: SaveRequest -> Outcome,
                    folder: Dir, sel: Selection, targets: set<FilePath>) returns (completed: bool)
      requires model.Valid()
      modifies model`files, this`saves
      ensures model.Valid()
      ensures |old(saves)| <= |saves| && saves[..|old(saves)|] == old(saves)
      ensures WritesFrom(saves[|old(saves)|..], targets, parse, save, folder, sel)
      ensures completed <==> targets <= old(model.files).Keys
      ensures completed ==>
                model.files == AfterBatch(old(model.files), targets, parse, save, folder, sel) &&
                WritesCover(saves[|old(saves)|..], targets, parse, save, folder, sel)
      ensures !completed ==>
                exists done :: done <= targets && model.files == AfterBatch(old(model.files), done, parse, save, folder, sel)
    {
      var remaining := targets;
      ghost var done: set<FilePath> := {};
      ghost var start := |saves|;
      AfterBatchNothing(model.files, parse, save, folder, sel);
      while remaining != {}
        invariant remaining + done == targets && remaining !! done
        invariant done <= old(model.files).Keys
        invariant model.Valid()
        invariant model.files == AfterBatch(old(model.files), done, parse, save, folder, sel)
        invariant start <= |saves| && saves[..start] == old(saves)
        invariant WritesFrom(saves[start..], done, parse, save, folder, sel)
        invariant WritesCover(saves[start..], done, parse, save, folder, sel)
        decreases remaining
      {
        var p :| p in remaining;
        ghost var savesBefore := saves;
        var status := ProcessPath(parse, save, folder, sel, p);
        SliceAppend(savesBefore, Saved(AttemptOne(parse, save, folder, sel, p)), start);
        WritesStep(savesBefore[start..], done, p, parse, save, folder, sel);
        if p !in model.files {
          WritesGrow(saves[start..], done + {p}, targets, parse, save, folder, sel);
          return false;
        }
        AfterBatchStep(old(model.files), done, p, parse, save, folder, sel);
        model.files := model.files[p := model.files[p].(status := status)];
        remaining, done := remaining - {p}, done + {p};
      }
      return true;
    }

    /**
     * `process_files`. Without an output folder or without selected tracks
     * it shows one error and changes nothing else. Otherwise it runs the
     * batch over the given paths, or over every cataloged path when none
     * are given, and, unless the batch stopped early, refreshes the view and
     * reports completion.
     */
    method ProcessFiles(parse: FilePath -> Result<Doc>, save: SaveRequest -> Outcome,
                        selectedTracks: seq<int>, keep: bool, selectedPaths: Option<set<FilePath>>)
      returns (completed: bool)
      requires model.Valid()
      modifies model`files, this`shown, this`saves
      ensures model.Valid()
      ensures model.outputFolder.None? ==>
                completed && model.files == old(model.files) && saves == old(saves) &&
                shown == old(shown) + [ErrorShown(OutputFolderUnset)]
      ensures model.outputFolder.Some? && selectedTracks == [] ==>
                completed && model.files == old(model.files) && saves == old(saves) &&
                shown == old(shown) + [ErrorShown(NoTracksSelected)]
      ensures model.outputFolder.Some? && selectedTracks != [] ==>
                var targets := Targets(selectedPaths, old(model.files).Keys);
                var sel := if keep then Keep(selectedTracks) else Remove(selectedTracks);
                var folder := model.outputFolder.value;
                |old(saves)| <= |saves| && saves[..|old(saves)|] == old(saves) &&
                WritesFrom(saves[|old(saves)|..], targets, parse, save, folder, sel) &&
                (completed <==> targets <= old(model.files).Keys) &&
                (completed ==>
                   model.files == AfterBatch(old(model.files), targets, parse, save, folder, sel) &&
                   WritesCover(saves[|old(saves)|..], targets, parse, save, folder, sel) &&
                   shown == old(shown) + RefreshEvents(model.files, model.order, model.current) + [ProcessingComplete]) &&
                (!completed ==>
                   shown == old(shown) &&
                   exists done :: done <= targets &&
                     model.files == AfterBatch(old(model.files), done, parse, save, folder, sel))
    {
      if model.outputFolder.None? {
        shown := shown + [ErrorShown(OutputFolderUnset)];
        return true;
      }
      if selectedTracks == [] {
        shown := shown + [ErrorShown(NoTracksSelected)];
        return true;
      }
      var folder := model.outputFolder.value;
      var sel := if keep then Keep(selectedTracks) else Remove(selectedTracks);
      var targets := Targets(selectedPaths, model.files.Keys);
      completed := RunBatch(parse, save, folder, sel, targets);
      if completed {
        RefreshView();
        shown := shown + [ProcessingComplete];
      }
    }
  }

  // ---------------------------------------------------------------------------
  // Properties.

  lemma SliceAppend(s: seq<SaveRequest>, t: seq<SaveRequest>, k: nat)
    requires k <= |s|
    ensures (s + t)[k..] == s[k..] + t && (s + t)[..k] == s[..k]
  {
  }

  lemma AfterBatchNothing(files: map<FilePath, FileInfo>, parse: FilePath -> Result<Doc>,
                          save: SaveRequest -> Outcome, folder: Dir, sel: Selection)
    ensures AfterBatch(files, {}, parse, save, folder, sel) == files
  {
  }

  /** Recording the status of one more path extends the processed set by that path. */
  lemma AfterBatchStep(files: map<FilePath, FileInfo>, done: set<FilePath>, p: FilePath,
                       parse: FilePath -> Result<Doc>, save: SaveRequest -> Outcome, folder: Dir, sel: Selection)
    requires p in files
    ensures var before := AfterBatch(files, done, parse, save, folder, sel);
            before[p := before[p].(status := AttemptOne(parse, save, folder, sel, p).status)] ==
            AfterBatch(files, done + {p}, parse, save, folder, sel)
  {
  }

  lemma WritesStep(news: seq<SaveRequest>, done: set<FilePath>, p: FilePath,
                   parse: FilePath -> Result<Doc>, save: SaveRequest -> Outcome, folder: Dir, sel: Selection)
    requires WritesFrom(news, done, parse, save, folder, sel)
    requires WritesCover(news, done, parse, save, folder, sel)
    ensures WritesFrom(news + Saved(AttemptOne(parse, save, folder, sel, p)), done + {p}, parse, save, folder, sel)
    ensures WritesCover(news + Saved(AttemptOne(parse, save, folder, sel, p)), done + {p}, parse, save, folder, sel)
  {
  }

  lemma WritesGrow(news: seq<SaveRequest>, ps: set<FilePath>, qs: set<FilePath>,
                   parse: FilePath -> Result<Doc>, save: SaveRequest -> Outcome, folder: Dir, sel: Selection)
    requires WritesFrom(news, ps, parse, save, folder, sel) && ps <= qs
    ensures WritesFrom(news, qs, parse, save, folder, sel)
  {
  }

  lemma MinusStep(m: map<FilePath, FileInfo>, removed: set<FilePath>, p: FilePath)
    ensures (m - removed) - {p} == m - (removed + {p})
  {
  }

  lemma {:induction false} FilteredNothing(s: seq<FilePath>)
    ensures Filtered(s, {}) == s
  {
    if s != [] {
      FilteredNothing(s[1..]);
    }
  }

  /** Removing one more path from a filtered order is filtering by the larger set. */
  lemma {:induction false} FilteredWithout(s: seq<FilePath>, drop: set<FilePath>, p: FilePath)
    ensures Without(Filtered(s, drop), p) == Filtered(s, drop + {p})
  {
    if s != [] {
      FilteredWithout(s[1..], drop, p);
      var rest := Filtered(s[1..], drop);
      if s[0] in drop {
        assert Filtered(s, drop) == rest;
      } else {
        assert Filtered(s, drop) == [s[0]] + rest;
        assert ([s[0]] + rest)[1..] == rest;
      }
    }
  }

  lemma {:induction false} DistinctCard(s: seq<FilePath>)
    requires Distinct(s)
    ensures |set p | p in s| == |s|
  {
    if s != [] {
      DistinctCard(s[1..]);
      assert (set p | p in s) == {s[0]} + (set p | p in s[1..]);
      assert s[0] !in s[1..];
    }
  }

  /** The file count shown by `_refresh_view` is the number of cataloged files. */
  lemma FileCountIsCatalogSize(files: map<FilePath, FileInfo>, order: seq<FilePath>)
    requires Distinct(order) && forall p :: p in files <==> p in order
    ensures |Rows(files, order)| == |files|
  {
    DistinctCard(order);
    assert files.Keys == set p | p in order;
  }

  /**
   * After adding `paths`, a path is cataloged exactly when it was before or
   * it is among `paths` and loads; each such loaded path holds a fresh
   * Pending record, and every other record is unchanged.
   */
  lemma {:induction false} AddedFilesSpec(files: map<FilePath, FileInfo>, parse: FilePath -> Result<Doc>, paths: seq<FilePath>)
    ensures forall q :: q in AddedFiles(files, parse, paths) <==> q in files || (q in paths && parse(q).Ok?)
    ensures forall q :: q in paths && parse(q).Ok? ==> AddedFiles(files, parse, paths)[q] == NewInfo(q, parse(q).value)
    ensures forall q :: q in files && !(q in paths && parse(q).Ok?) ==> AddedFiles(files, parse, paths)[q] == files[q]
    decreases |paths|
  {
    if paths != [] {
      var init := paths[..|paths| - 1];
      AddedFilesSpec(files, parse, init);
      assert paths == init + [paths[|paths| - 1]];
    }
  }

  /** An error is shown for exactly the added paths that fail to load. */
  lemma {:induction false} LoadErrorsExactly(parse: FilePath -> Result<Doc>, paths: seq<FilePath>)
    ensures forall p :: ErrorShown(LoadFailed(p)) in LoadErrors(parse, paths) <==> p in paths && parse(p).Err?
    ensures forall e :: e in LoadErrors(parse, paths) ==> e.ErrorShown? && e.notice.LoadFailed?
    decreases |paths|
  {
    if paths != [] {
      var init := paths[..|paths| - 1];
      LoadErrorsExactly(parse, init);
      assert paths == init + [paths[|paths| - 1]];
    }
  }

  /**
   * When track 0 survives the filter, reading the tempo back from the
   * written file gives the tempo that was preserved: the source's first
   * tempo, or the default when it has none.
   */
  lemma FirstTrackKeptReadsBackTempo(parse: FilePath -> Result<Doc>, save: SaveRequest -> Outcome,
                                     folder: Dir, sel: Selection, p: FilePath)
    requires parse(p).Ok? && |parse(p).value.tracks| > 0 && Survives(sel, 0)
    requires FirstTempo(parse(p).value.tracks) != Some(0)
    ensures AttemptOne(parse, save, folder, sel, p).save.Some?
    ensures FirstTempo(AttemptOne(parse, save, folder, sel, p).save.value.doc.tracks) == Some(TempoToWrite(parse(p).value))
  {
    var doc := parse(p).value;
    var idx := SurvivingIndices(|doc.tracks|, sel);
    SurvivingIndicesSpec(|doc.tracks|, sel);
    KeptIsIndexed(doc.tracks, sel);
    var out := Filter(doc, sel).value;
    assert 0 in idx;
    assert idx[0] == 0;
    assert out.tracks[0] == doc.tracks[0];
    ReadBackAfterInject(out, TempoToWrite(doc));
  }

  /**
   * Keeping the middle one of three tracks writes a file holding only that
   * track, with the preserved tempo appended, and succeeds when the write does.
   */
  lemma KeepMiddleOfThree(parse: FilePath -> Result<Doc>, save: SaveRequest -> Outcome,
                          folder: Dir, p: FilePath, tpb: nat, t0: Track, t1: Track, t2: Track)
    requires parse(p) == Ok(Doc(tpb, [t0, t1, t2]))
    requires FirstTempo([t0, t1, t2]) != Some(0)
    ensures var a := AttemptOne(parse, save, folder, Keep([1]), p);
            a.save.Some? &&
            a.save.value.doc == Doc(tpb, [t1 + [SetTempo(TempoToWrite(Doc(tpb, [t0, t1, t2])))]]) &&
            a.save.value.name == p.stem + "_modified" + p.suffix &&
            (save(a.save.value).Pass? ==> a.status == Success)
  {
    var tracks := [t0, t1, t2];
    var sel := Keep([1]);
    assert [t0][..0] == [];
    assert Kept([t0], sel) == [];
    assert [t0, t1][..1] == [t0];
    assert Kept([t0, t1], sel) == [t1];
    assert tracks[..2] == [t0, t1];
    assert Kept(tracks, sel) == [t1];
  }

  /**
   * The preserved tempo is not always what a re-read finds: when the first
   * surviving track carries a `set_tempo` of its own, that one comes first.
   */
  lemma ReadBackCanDiffer()
    ensures var doc := Doc(480, [[SetTempo(500_000)], [SetTempo(400_000)]]);
            var out := Doc(480, [[SetTempo(400_000)]]);
            Filter(doc, Remove([0])) == Some(out) &&
            TempoToWrite(doc) == 500_000 &&
            FirstTempo(Inject(out, 500_000).tracks) == Some(400_000)
  {
    var tracks := [[SetTempo(500_000)], [SetTempo(400_000)]];
    assert tracks[..1] == [[SetTempo(500_000)]] && tracks[..1][..0] == [];
    assert Kept(tracks, Remove([0])) == [[SetTempo(400_000)]];
  }
}
