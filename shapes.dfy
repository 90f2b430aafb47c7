/** Attribution arrays in the three layouts an explainer may hand back, and
    their reduction to one samples × features matrix for the positive class.
    Only positions are chosen, so the element type `T` stays uninterpreted. */
module Shapes {
  import opened Results

  /** The positive class of a binary classifier. */
  const PositiveClass := 1

  /** A 2-D array. `rows` is the first axis and `cols` is the length of the
      second one, kept apart so that an array with no rows keeps its shape. */
  datatype Matrix<T> = Matrix(cols: nat, rows: seq<seq<T>>) {
    /** Arrays are rectangular: every row has `cols` entries. */
    predicate Valid() {
      forall i :: 0 <= i < |rows| ==> |rows[i]| == cols
    }

    /** True when the array has shape (samples, features). */
    predicate HasShape(samples: nat, features: nat) {
      |rows| == samples && cols == features
    }
  }

  /** A 3-D array of shape (|cells|, features, classes). */
  datatype Cube<T> = Cube(features: nat, classes: nat, cells: seq<seq<seq<T>>>) {
    predicate Valid() {
      forall i :: 0 <= i < |cells| ==>
        |cells[i]| == features &&
        forall j :: 0 <= j < features ==> |cells[i][j]| == classes
    }
  }

  /** What the explainer returns: a list with one array per class, one 3-D
      array with the classes on the last axis, or a single 2-D array. */
  datatype ShapValues<T> =
    | PerClass(outputs: seq<Matrix<T>>)
    | Stacked(cube: Cube<T>)
    | Flat(matrix: Matrix<T>)
  {
    predicate Valid() {
      match this
      case PerClass(outputs) => forall k :: 0 <= k < |outputs| ==> outputs[k].Valid()
      case Stacked(cube) => cube.Valid()
      case Flat(matrix) => matrix.Valid()
    }

    /** Every array in this value has shape (samples, features), and a class
        axis or class list is not empty. */
    predicate Describes(samples: nat, features: nat) {
      match this
      case PerClass(outputs) =>
        |outputs| > 0 &&
        forall k :: 0 <= k < |outputs| ==> outputs[k].HasShape(samples, features)
      case Stacked(cube) =>
        |cube.cells| == samples && cube.features == features && cube.classes > 0
      case Flat(matrix) => matrix.HasShape(samples, features)
    }
  }

  /** The entries at class index `k` of one row of cells. */
  function ClassColumn<T>(row: seq<seq<T>>, k: nat): (r: seq<T>)
    requires forall j :: 0 <= j < |row| ==> k < |row[j]|
    ensures |r| == |row|
    ensures forall j :: 0 <= j < |row| ==> r[j] == row[j][k]
  {
    if row == [] then [] else [row[0][k]] + ClassColumn(row[1..], k)
  }

  /** The slice `cells[:, :, k]`: every cell reduced to its entry at class `k`. */
  function ClassSlice<T>(cells: seq<seq<seq<T>>>, k: nat): (r: seq<seq<T>>)
    requires forall i, j :: 0 <= i < |cells| && 0 <= j < |cells[i]| ==> k < |cells[i][j]|
    ensures |r| == |cells|
    ensures forall i :: 0 <= i < |cells| ==> |r[i]| == |cells[i]|
    ensures forall i, j :: 0 <= i < |cells| && 0 <= j < |cells[i]| ==> r[i][j] == cells[i][j][k]
  {
    if cells == [] then [] else [ClassColumn(cells[0], k)] + ClassSlice(cells[1..], k)
  }

  /** The class index the normaliser reads from a list or a class axis of
      `n` classes: the positive class when there are two or more, else 0. */
  function ClassIndex(n: nat): (k: nat)
    ensures n > 0 ==> k < n
    ensures n > 1 ==> k == PositiveClass
    ensures n <= 1 ==> k == 0
  {
    if n > 1 then PositiveClass else 0
  }

  /** normalize_shap_values: one 2-D matrix for the positive class, or the
      IndexError that indexing an empty list or empty class axis raises. */
  function Normalize<T>(sv: ShapValues<T>): (r: Result<Matrix<T>>)
    requires sv.Valid()
    ensures r.Ok? ==> r.value.Valid()
    ensures r.Err? ==> r.error == IndexOutOfRange
    ensures r.Err? <==> (sv.PerClass? && |sv.outputs| == 0) || (sv.Stacked? && sv.cube.classes == 0)
    ensures sv.Stacked? && r.Ok? ==>
      r.value.HasShape(|sv.cube.cells|, sv.cube.features)
  {
    match sv
    case PerClass(outputs) =>
      if |outputs| == 0 then Err(IndexOutOfRange) else Ok(outputs[ClassIndex(|outputs|)])
    case Stacked(cube) =>
      var k := ClassIndex(cube.classes);
      if k < cube.classes then Ok(Matrix(cube.features, ClassSlice(cube.cells, k)))
      else Err(IndexOutOfRange)
    case Flat(matrix) => Ok(matrix)
  }

  /** A list of two or more per-class arrays yields the positive class's. */
  lemma PerClassPicksPositive<T>(outputs: seq<Matrix<T>>)
    requires forall k :: 0 <= k < |outputs| ==> outputs[k].Valid()
    requires |outputs| >= 2
    ensures Normalize(PerClass(outputs)) == Ok(outputs[PositiveClass])
  {
  }

  /** A list with a single array yields that array; an empty list is an
      IndexError. */
  lemma PerClassSingleOrEmpty<T>(outputs: seq<Matrix<T>>)
    requires forall k :: 0 <= k < |outputs| ==> outputs[k].Valid()
    requires |outputs| <= 1
    ensures |outputs| == 1 ==> Normalize(PerClass(outputs)) == Ok(outputs[0])
    ensures |outputs| == 0 ==> Normalize(PerClass(outputs)) == Err(IndexOutOfRange)
  {
  }

  /** A 3-D array of shape (n, f, c) with c > 0 yields an n × f matrix whose
      entry (i, j) is the input's entry (i, j, 1) when c > 1 and (i, j, 0)
      when c == 1; with c == 0 the slice is an IndexError. */
  lemma StackedSlicesClassAxis<T>(cube: Cube<T>)
    requires cube.Valid()
    ensures cube.classes == 0 ==> Normalize(Stacked(cube)) == Err(IndexOutOfRange)
    ensures cube.classes > 0 ==>
      var r := Normalize(Stacked(cube));
      var k := if cube.classes > 1 then PositiveClass else 0;
      && r.Ok?
      && r.value.HasShape(|cube.cells|, cube.features)
      && r.value.Valid()
      && forall i, j :: 0 <= i < |cube.cells| && 0 <= j < cube.features ==>
           r.value.rows[i][j] == cube.cells[i][j][k]
  {
  }

  /** Anything that is neither a list nor a 3-D array is passed through. */
  lemma FlatUnchanged<T>(matrix: Matrix<T>)
    requires matrix.Valid()
    ensures Normalize(Flat(matrix)) == Ok(matrix)
  {
  }

  /** Normalising a normalised result again changes nothing. */
  lemma NormalizeIdempotent<T>(sv: ShapValues<T>)
    requires sv.Valid()
    ensures Normalize(sv).Ok? ==> Normalize(Flat(Normalize(sv).value)) == Normalize(sv)
  {
  }

  /** Input of shape (samples, features) in any of the three layouts
      normalises to a samples × features matrix. */
  lemma NormalizeKeepsShape<T>(sv: ShapValues<T>, samples: nat, features: nat)
    requires sv.Valid()
    requires sv.Describes(samples, features)
    ensures Normalize(sv).Ok?
    ensures Normalize(sv).value.HasShape(samples, features)
  {
  }

  /** Every array in the list is a valid samples × features matrix. */
  predicate AllOfShape<T>(outputs: seq<Matrix<T>>, samples: nat, features: nat) {
    forall k :: 0 <= k < |outputs| ==> outputs[k].Valid() && outputs[k].HasShape(samples, features)
  }

  /** The 3-D layout of a list of per-class arrays of shape (samples, features):
      entry (i, j, k) of the cube is entry (i, j) of the k-th array. */
  function Stack<T>(outputs: seq<Matrix<T>>, samples: nat, features: nat): (c: Cube<T>)
    requires AllOfShape(outputs, samples, features)
    ensures c.Valid()
    ensures |c.cells| == samples && c.features == features && c.classes == |outputs|
    ensures forall i, j, k :: 0 <= i < samples && 0 <= j < features && 0 <= k < |outputs| ==>
      c.cells[i][j][k] == outputs[k].rows[i][j]
  {
    Cube(features, |outputs|,
      seq(samples, i requires 0 <= i < samples =>
        seq(features, j requires 0 <= j < features =>
          seq(|outputs|, k requires 0 <= k < |outputs| => outputs[k].rows[i][j]))))
  }

  /** The normaliser picks the same matrix whichever of the two multi-class
      layouts the explainer used, so its result does not depend on the
      explainer library's version. */
  lemma {:induction false} LayoutIndependent<T>(outputs: seq<Matrix<T>>, samples: nat, features: nat)
    requires AllOfShape(outputs, samples, features)
    ensures Normalize(Stacked(Stack(outputs, samples, features))) == Normalize(PerClass(outputs))
  {
    var cube := Stack(outputs, samples, features);
    if |outputs| > 0 {
      var k := ClassIndex(|outputs|);
      var sliced := ClassSlice(cube.cells, k);
      assert |sliced| == |outputs[k].rows|;
      forall i | 0 <= i < samples
        ensures sliced[i] == outputs[k].rows[i]
      {
        assert |sliced[i]| == |outputs[k].rows[i]|;
        forall j | 0 <= j < features
          ensures sliced[i][j] == outputs[k].rows[i][j]
        {
          assert sliced[i][j] == cube.cells[i][j][k];
        }
      }
      assert sliced == outputs[k].rows;
    }
  }
}
