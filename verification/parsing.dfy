/** Parsed form values.

    The web form keeps every number as the text the student typed and turns it into a
    number with `parseFloat` at the moment of use.  This model does not describe how text
    is parsed: a parser is any total function from text to an optional real, `None`
    standing for the NaN that `parseFloat` returns when the text holds no number.

    All arithmetic in the model is exact `real` arithmetic; IEEE-754 rounding is not
    modelled.
 */
module Parsing {

  /** A value that may be absent (`null` or NaN in the original program). */
  datatype Option<+T> = None | Some(value: T)

  /** What `parseFloat` is to the model: text in, a number or nothing out. */
  type Parser = string -> Option<real>

  /** JavaScript truthiness of a number that is either `null` or a parsed value:
      `null` and `0` are falsy, every other number is truthy. */
  predicate Truthy(x: Option<real>)
  {
    x.Some? && x.value != 0.0
  }
}
