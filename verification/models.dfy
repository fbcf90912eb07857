/**
 * The catalog of loaded files (models.py): per-file metadata keyed by path,
 * the currently selected document and the output folder.
 */
module Models {
  import opened Wrappers
  import opened Midi
  import opened Tempo

  /** The processing status of a cataloged file. */
  datatype Status =
    | Pending                 // "Pending", set when the file is added
    | Success                 // "Success"
    | NoTracks                // "Error: No tracks", the filter kept nothing
    | Failed(detail: string)  // "Error: <exception text>"

  /** The status as it is displayed in the file list. */
  function StatusText(s: Status): (r: string)
    ensures (s.NoTracks? || s.Failed?) <==> |r| >= 7 && r[..7] == "Error: "
  {
    match s
    case Pending => var t := "Pending"; assert t[..7][0] == 'P'; t
    case Success => var t := "Success"; assert t[..7][0] == 'S'; t
    case NoTracks => "Error: No tracks"
    case Failed(d) => "Error: " + d
  }

  /** The metadata kept for one file; `errorMessage` is never set by the application and stays empty. */
  datatype FileInfo = FileInfo(path: FilePath, trackCount: nat, status: Status, errorMessage: string)

  /** The record created when `path` parses to `doc`. */
  function NewInfo(path: FilePath, doc: Doc): FileInfo
  {
    FileInfo(path, |doc.tracks|, Pending, "")
  }

  /** The selected document together with the path it was loaded from. */
  datatype Loaded = Loaded(source: FilePath, doc: Doc)

  /** The exception text of the tempo conversion on a zero tempo (a division by zero). */
  const ZeroDivision: string := "float division by zero"

  /**
   * What `get_tempo` yields for a parse outcome: the parse error, no tempo,
   * the division-by-zero error of the BPM conversion on a zero tempo, or the
   * first tempo.
   */
  function TempoLookup(parsed: Result<Doc>): Result<Option<nat>>
  {
    match parsed
    case Err(e) => Err(e)
    case Ok(doc) =>
      match FirstTempo(doc.tracks)
      case None => Ok(None)
      case Some(v) => if v == 0 then Err(ZeroDivision) else Ok(Some(v))
  }

  predicate Distinct(s: seq<FilePath>)
  {
    forall i, j :: 0 <= i < j < |s| ==> s[i] != s[j]
  }

  /** `s` without the occurrences of `p`, the rest in order. */
  function Without(s: seq<FilePath>, p: FilePath): (r: seq<FilePath>)
    ensures forall q :: q in r <==> q in s && q != p
    ensures Distinct(s) ==> Distinct(r)
  {
    if s == [] then []
    else
      var rest := Without(s[1..], p);
      assert Distinct(s) ==> s[0] !in s[1..];
      if s[0] == p then rest else [s[0]] + rest
  }

  class MidiProcessorModel {
    /** The records, keyed by path. */
    var files: map<FilePath, FileInfo>
    /** The keys of `files` in insertion order, which is the order they are displayed in. */
    var order: seq<FilePath>
    /** The selected document, if any. */
    var current: Option<Loaded>
    var outputFolder: Option<Dir>

    /** `order` lists each key once, and every record sits under its own path. */
    ghost predicate Valid()
      reads this
    {
      Distinct(order) &&
      (forall p :: p in files <==> p in order) &&
      (forall p :: p in files ==> files[p].path == p)
    }

    constructor ()
      ensures Valid()
      ensures files == map[] && order == [] && current == None && outputFolder == None
    {
      files, order := map[], [];
      current, outputFolder := None, None;
    }

    /**
     * Sets the output folder when the folder exists or could be created
     * (`ready`, the outcome of the filesystem step), and clears it otherwise.
     */
    method SetOutputFolder(path: Dir, ready: bool) returns (ok: bool)
      modifies this`outputFolder
      ensures ok == ready
      ensures outputFolder == if ready then Some(path) else None
    {
      if ready {
        outputFolder := Some(path);
        ok := true;
      } else {
        outputFolder := None;
        ok := false;
      }
    }

    /**
     * Parses `path` and returns its first tempo, scanning tracks in order
     * and messages in order within each, and stopping at the first hit.
     */
    method GetTempo(parse: FilePath -> Result<Doc>, path: FilePath) returns (r: Result<Option<nat>>)
      ensures r == TempoLookup(parse(path))
    {
      var parsed := parse(path);
      if parsed.Err? {
        return Err(parsed.detail);
      }
      var tracks: seq<Track> := parsed.value.tracks;
      var i := 0;
      while i < |tracks|
        invariant 0 <= i <= |tracks|
        invariant forall i2, j2 :: 0 <= i2 < i && 0 <= j2 < |tracks[i2]| ==> !tracks[i2][j2].SetTempo?
      {
        var j := 0;
        while j < |tracks[i]|
          invariant 0 <= j <= |tracks[i]|
          invariant forall j2 :: 0 <= j2 < j ==> !tracks[i][j2].SetTempo?
        {
          if tracks[i][j].SetTempo? {
            FirstTempoIsEarliest(tracks, i, j);
            var v := tracks[i][j].tempo;
            if v == 0 {
              return Err(ZeroDivision);
            }
            return Ok(Some(v));
          }
          j := j + 1;
        }
        i := i + 1;
      }
      FirstTempoNoneIff(tracks);
      return Ok(None);
    }

    /**
     * Parses `path`; on success stores a fresh Pending record under it,
     * replacing any earlier one (which keeps its display position), and
     * returns it; on failure changes nothing and returns `None`.
     */
    method AddMidiFile(parse: FilePath -> Result<Doc>, path: FilePath) returns (r: Option<FileInfo>)
      requires Valid()
      modifies this`files, this`order
      ensures Valid()
      ensures parse(path).Ok? ==>
                r == Some(NewInfo(path, parse(path).value)) &&
                files == old(files)[path := r.value] &&
                order == if path in old(files) then old(order) else old(order) + [path]
      ensures parse(path).Err? ==> r == None && files == old(files) && order == old(order)
    {
      var parsed := parse(path);
      if parsed.Err? {
        return None;
      }
      var info := NewInfo(path, parsed.value);
      if path !in files {
        order := order + [path];
      }
      files := files[path := info];
      return Some(info);
    }

    /**
     * Drops the record of `path`, if there is one, and deselects the current
     * document when it was loaded from `path`.
     */
    method RemoveMidiFile(path: FilePath)
      requires Valid()
      modifies this`files, this`order, this`current
      ensures Valid()
      ensures files == old(files) - {path}
      ensures order == Without(old(order), path)
      ensures current == if old(current).Some? && old(current).value.source == path then None else old(current)
    {
      files := files - {path};
      order := Without(order, path);
      if current.Some? && current.value.source == path {
        current := None;
      }
    }

    /** Parses `path` afresh and makes it the current document, or clears the selection when that fails. */
    method SetCurrentMidi(parse: FilePath -> Result<Doc>, path: FilePath) returns (r: Option<Doc>)
      modifies this`current
      ensures parse(path).Ok? ==> r == Some(parse(path).value) && current == Some(Loaded(path, r.value))
      ensures parse(path).Err? ==> r == None && current == None
    {
      var parsed := parse(path);
      if parsed.Ok? {
        current := Some(Loaded(path, parsed.value));
        r := Some(parsed.value);
      } else {
        current := None;
        r := None;
      }
    }

    /** Forgets every record and the selection; the output folder stays. */
    method ClearAll()
      modifies this`files, this`order, this`current
      ensures Valid()
      ensures files == map[] && order == [] && current == None
    {
      files, order := map[], [];
      current := None;
    }
  }
}
