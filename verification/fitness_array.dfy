/**
 * The numpy array of fitness scores handed to `base_selection`.
 *
 * A two-dimensional array keeps its cells, so that its transpose can be stated
 * element by element. An array of any other rank is kept by its shape only: the
 * selection step only ever looks at its shape, and always rejects it.
 */
module FitnessArray {

  /** The shape read backwards: numpy's `.T` reverses the order of the axes. */
  function Reversed(s: seq<nat>): (r: seq<nat>)
    ensures |r| == |s|
    ensures forall i :: 0 <= i < |s| ==> r[i] == s[|s| - 1 - i]
  {
    if s == [] then [] else Reversed(s[1..]) + [s[0]]
  }

  lemma ReversedInvolutive(s: seq<nat>)
    ensures Reversed(Reversed(s)) == s
  {
  }

  /**
   * A fitness array. `Grid(rows, cols)` is a two-dimensional array of shape
   * `(|rows|, cols)`: one row per candidate and one column per objective once it
   * is oriented. `cols` is kept apart from the rows so that an array with no rows
   * still has a column count. `Other(shape)` is an array of any other rank.
   */
  datatype Fitness<T> = Grid(rows: seq<seq<T>>, cols: nat) | Other(shape: seq<nat>)
  {
    /** Every numpy array is rectangular, and only a `Grid` has two axes. */
    ghost predicate Valid() {
      match this
      case Grid(rows, cols) => forall i :: 0 <= i < |rows| ==> |rows[i]| == cols
      case Other(shape) => |shape| != 2
    }

    /** numpy's `.shape` */
    function Shape(): (s: seq<nat>)
      ensures Valid() ==> (|s| == 2 <==> Grid?)
    {
      if Grid? then [|rows|, cols] else shape
    }

    /** numpy's `.T`: the axes in reverse order; for two axes, cell (i, j) moves to (j, i). */
    function Transpose(): (t: Fitness<T>)
      requires Valid()
      ensures t.Valid()
      ensures t.Shape() == Reversed(Shape())
      ensures Grid? ==> t.Grid? && |t.rows| == cols && t.cols == |rows|
      ensures Grid? ==> forall i, j :: 0 <= i < |rows| && 0 <= j < cols ==> t.rows[j][i] == rows[i][j]
    {
      match this
      case Grid(rows, cols) =>
        Grid(seq(cols, j requires 0 <= j < cols => seq(|rows|, i requires 0 <= i < |rows| => rows[i][j])), |rows|)
      case Other(shape) => Other(Reversed(shape))
    }
  }

  /** Transposing twice gives back the array one started from. */
  lemma TransposeInvolutive<T>(f: Fitness<T>)
    requires f.Valid()
    ensures f.Transpose().Transpose() == f
  {
    var t := f.Transpose().Transpose();
    match f
    case Grid(rows, cols) =>
      assert |t.rows| == |rows|;
      forall i | 0 <= i < |rows| ensures t.rows[i] == rows[i] {
        assert |t.rows[i]| == cols;
      }
    case Other(shape) =>
      ReversedInvolutive(shape);
  }
}
