/** Log levels. The numeric values and the real parser and printer belong to
    the logging engine this package wraps, so they are kept abstract: a
    `LevelSyntax` value carries the engine's `ParseLevel` and `Level.String`. */
module Levels {

  /** The six severities the engine exports (LvTRACE ... LvFATAL). */
  datatype Level = Trace | Debug | Info | Warn | Error | Fatal

  /** The engine's text form of levels: `parse(s)` is Go's `ParseLevel(s)`,
      a level together with an ok flag; `show(l)` is `l.String()`. */
  datatype LevelSyntax = LevelSyntax(parse: string -> (Level, bool), show: Level -> string)

  /** What the engine is documented to promise: printing a level and parsing
      the text back gives the same level. Used only as a hypothesis. */
  ghost predicate ShowParses(syn: LevelSyntax) {
    forall l: Level {:trigger syn.show(l)} :: syn.parse(syn.show(l)) == (l, true)
  }
}
