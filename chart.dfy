/** One line of a beatmap chart, `<lane> <marker> <time>`, as the game's
    loader splits it into three space-separated tokens and the MIDI beatmap
    converter writes it. The lane is the first token read as an integer, the
    marker the second token (`@` tap, `+` hold start, `-` hold end), the time
    the third token read as seconds. */
module Chart {

  datatype ChartLine = ChartLine(lane: int, marker: string, time: real)

  const Tap: string := "@"
  const HoldStart: string := "+"
  const HoldEnd: string := "-"
}
