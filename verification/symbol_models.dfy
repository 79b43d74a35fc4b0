/**
 * The layout of a symbol keyboard: buttons (`SymbolItem`) grouped into named
 * tabs (`SymbolCategory`). Both are immutable records in the source; every
 * change builds a new value. The source gives each value a fresh UUID; the
 * model leaves ids out, so equality of two values here is equality of all
 * their other fields.
 */
module SymbolModels {
  import opened Wrappers

  /** One button: its glyph, optional pair halves, tooltip, repeat flag and statistics key. */
  datatype SymbolItem = SymbolItem(
    text: string,
    left: Option<string>,
    right: Option<string>,
    hint: Option<string>,
    repeatable: bool,
    key: Option<string>)

  /** One tab: a name, an optional comment, a declared column count, a lock flag and its buttons in order. */
  datatype SymbolCategory = SymbolCategory(
    name: string,
    comment: Option<string>,
    column: int,
    locked: bool,
    symbols: seq<SymbolItem>)

  /** Smallest and largest column count the markup reader lets through. */
  const MinColumn: int := 1
  const MaxColumn: int := 8

  /** The column range is not part of the type: only the reader establishes it. */
  predicate ColumnInRange(c: SymbolCategory) {
    MinColumn <= c.column <= MaxColumn
  }
}
