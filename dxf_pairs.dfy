/**
 * DXF group-code/value pairs and the line reader they come from. The reader
 * is a cursor over the pairs of a file; it remembers where the last pair it
 * read started, so that a caller can push that pair back.
 */
module DxfPairs {
  import opened Wrappers

  // The group codes the polyline reader distinguishes.
  const TYPE: int := 0
  const NAME: int := 2
  const LINETYPE_NAME: int := 6
  const LAYER_NAME: int := 8
  const X_1: int := 10
  const Y_1: int := 20
  const DOUBLE_3: int := 42
  const VISIBILITY: int := 60
  const COLOR: int := 62
  const INT_1: int := 70

  /** The value of a pair read as a string, as a double and as a short. */
  datatype Value = Value(text: string, asDouble: real, asShort: int)

  datatype Pair = Pair(code: int, value: Value)

  class PairReader {
    const pairs: seq<Pair>
    /** Index of the next pair to read; `|pairs|` is the end of the file. */
    var pos: nat
    /** Where the pair read last started. */
    var mark: nat

    ghost predicate Valid()
      reads this
    {
      mark <= pos <= |pairs|
    }

    constructor (pairs: seq<Pair>)
      ensures Valid() && this.pairs == pairs && pos == 0
    {
      this.pairs := pairs;
      pos := 0;
      mark := 0;
    }

    /** Reads the next pair, or gives `None` at the end of the file. */
    method Read() returns (p: Option<Pair>)
      requires Valid()
      modifies this
      ensures Valid()
      ensures old(pos) < |pairs| ==> p == Some(pairs[old(pos)]) && pos == old(pos) + 1 && mark == old(pos)
      ensures old(pos) == |pairs| ==> p == None && pos == old(pos) && mark == old(pos)
    {
      if pos == |pairs| {
        mark := pos;
        return None;
      }
      p := Some(pairs[pos]);
      mark := pos;
      pos := pos + 1;
    }

    /** Pushes back the pair read last. */
    method Reset()
      requires Valid()
      modifies this
      ensures Valid() && pos == old(mark) && mark == old(mark)
    {
      pos := mark;
    }
  }
}
