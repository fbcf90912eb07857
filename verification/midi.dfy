/**
 * The abstract MIDI document the application works on. Parsing and writing
 * the binary container belong to the MIDI library and are not modelled: a
 * document is its time resolution plus its tracks, and a track is the ordered
 * list of its messages, of which only the two kinds the application looks at
 * carry fields.
 */
module Midi {

  /** A message: the two kinds the application reads, and every other kind by its type tag. */
  datatype Message =
    | TrackName(name: string)   // meta message of type "track_name"
    | SetTempo(tempo: nat)      // meta message of type "set_tempo", microseconds per beat
    | Other(kind: OtherKind)    // any other message, known only by its type tag

  /** The type tag of a message of any kind other than the two the application reads. */
  type OtherKind = k: string | k != "track_name" && k != "set_tempo" witness ""

  /** The type tag of a message, as the library reports it. */
  function Kind(m: Message): string
  {
    match m
    case TrackName(_) => "track_name"
    case SetTempo(_) => "set_tempo"
    case Other(k) => k
  }

  type Track = seq<Message>

  /** A parsed MIDI file: ticks per beat and its tracks, in file order. */
  datatype Doc = Doc(ticksPerBeat: nat, tracks: seq<Track>)

  /**
   * A file path, split into the parts the application uses: the directory,
   * the file name without its extension (stem) and the extension (suffix).
   */
  datatype FilePath = FilePath(dir: string, stem: string, suffix: string)

  /** A directory path (the output folder). */
  type Dir = string
}
