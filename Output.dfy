/** The console, modelled as the sequence of lines a call writes. */
module Output {
  /** One line of console output. `Text` is written verbatim; `BmiFigure`
      stands for "BMI for <name> is <bmi>", whose two-decimal rendering of
      the figure is not modelled: the raw value is kept. */
  datatype Line = Text(text: string) | BmiFigure(name: string, bmi: real)

  /** The empty line written by a bare `Console.WriteLine()`. */
  const Blank: Line := Text("")
}
