/** Words joined by a separator character, as event and meter names are spelled. */
module Words {
  /** The words `ws` joined by `sep`. */
  function Joined(ws: seq<string>, sep: char): string
  {
    if |ws| == 0 then "" else if |ws| == 1 then ws[0] else ws[0] + [sep] + Joined(ws[1..], sep)
  }
}
