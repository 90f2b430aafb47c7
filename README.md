# Shap-Mini attribution script, modelled in Dafny

Shap-Mini trains a binary classifier (a random forest, `rf`, or a logistic
regression, `logreg`) and then plots feature attributions for it. Almost all of
the work happens in libraries: scikit-learn fits, shap computes attributions,
matplotlib draws. This project models the logic the repository itself owns,
all of it in `shapify.py`:

- **The attribution-shape normaliser** (`normalize_shap_values`). An explainer
  returns its attributions in one of three layouts: a list with one array per
  class, one 3-D array of samples × features × classes, or a single 2-D array.
  The normaliser reduces each to one samples × features matrix for the
  positive class (index 1).
  Module `Shapes` models the three layouts as `ShapValues<T>`, using `Matrix<T>`
  and `Cube<T>`. The element type `T` is left uninterpreted, because the
  normaliser only selects entries and never computes with them. Numpy arrays
  are rectangular and keep their shape even with no rows. So a `Matrix` carries
  its column count, a `Cube` carries its feature and class counts, and each
  has a `Valid()` predicate that says it is rectangular.
- **The decisions in `main`** (module `Shapify`). These are the sample size
  for each model kind, the shape check between the normalised matrix and the
  sample, and the choice of dependence-plot feature. `Explain` composes them
  in the script's order: sample size, normalise, shape check, then the
  summary plot, then the dependence feature. Its result `Run` records how far
  a run gets: `Failed` before any plot, `SummaryOnly` when the summary plot
  was written and the feature choice then failed, or `Plotted` when both
  plots were drawn.

Every exception the script can raise on these paths is an `Error` value
(module `Results`), and no error case is a precondition. The only
requirement is that the arrays are rectangular (`Valid()`), which numpy
guarantees. An empty per-class list,
or a 3-D array whose class axis is empty, makes Python raise an IndexError.
Here that case is `Err(IndexOutOfRange)`. The same goes for taking the
default dependence feature from an empty column list. An unknown model kind,
a shape mismatch and an unknown feature each have their own error.

The two multi-class layouts exist because different shap versions return
different ones. `Shapes.LayoutIndependent` proves that the normaliser picks
the same matrix from either layout. That is the promise of the function's
docstring: the result does not depend on the shap version.

## Model

| member | source | states |
|---|---|---|
| `Shapes.Normalize` | shapify.py:21-34 | the result is a rectangular matrix; the only failure is an IndexError, and it happens exactly for an empty per-class list or an empty class axis; a 3-D input of shape (n, f, c) yields an n × f matrix |
| `Shapes.PerClassPicksPositive` | shapify.py:27-29 | a per-class list with two or more arrays yields exactly the array at index 1, the positive class |
| `Shapes.PerClassSingleOrEmpty` | shapify.py:29 | a one-element list yields its only array; an empty list is an IndexError |
| `Shapes.StackedSlicesClassAxis` | shapify.py:30-33 | a 3-D input with c > 0 classes yields an n × f rectangular matrix whose entry (i, j) is input entry (i, j, 1) when c > 1 and (i, j, 0) when c == 1; with c == 0 it is an IndexError |
| `Shapes.FlatUnchanged` | shapify.py:34 | an input that is neither a list nor 3-D is returned unchanged |
| `Shapes.NormalizeIdempotent` | shapify.py:30-34 | normalising a normalised result again returns it unchanged |
| `Shapes.NormalizeKeepsShape` | shapify.py:22-34 | input of shape (samples, features) in any of the three layouts, with a non-empty class list or axis, normalises without error to a samples × features matrix |
| `Shapes.ClassIndex` | shapify.py:29-32 | the class index read is below the class count when there is a class, is the positive class when there are two or more classes, and is 0 otherwise |
| `Shapes.ClassColumn` | shapify.py:33 | one row of the slice: entry j is the cell's entry at the chosen class, for every j |
| `Shapes.ClassSlice` | shapify.py:33 | the slice `[:, :, k]` keeps the row count and every row's length, and entry (i, j) is input entry (i, j, k) |
| `Shapes.Stack` | shapify.py:22-23 | the 3-D layout of a per-class list is rectangular with shape (samples, features, number of classes), and entry (i, j, k) is entry (i, j) of the k-th class's array |
| `Shapes.LayoutIndependent` | shapify.py:22-24 | normalising the 3-D layout of a per-class list gives the same result as normalising the list itself, errors included |
| `Shapify.SampleSize` | shapify.py:57-67 | succeeds exactly for `rf` and `logreg`; any other kind is an UnsupportedModel error; the size is at most the available rows and at most the kind's cap (200 or 500), and equals one of the two |
| `Shapify.CheckAlignment` | shapify.py:70-71 | fails exactly when the matrix's row count differs from the sample's row count or its column count differs from the sample's column count; the error reports both shapes; on success the matrix is passed on unchanged |
| `Shapify.DependenceFeature` | shapify.py:81-83 | the feature is the requested one, or the first trained column when none is requested; it succeeds exactly when that name is a column of the sample; with no request and no trained columns it is an IndexError, and every other failure is an UnknownFeature error naming the rejected feature |
| `Shapify.Explain` | shapify.py:57-83 | the run fails before any plot exactly when the kind is unsupported (UnsupportedModel), normalisation fails (IndexError) or the normalised matrix's shape differs from (min(cap, available), number of trained columns) (ShapeMismatch), in that order; otherwise the summary plot gets that sample and exactly the normalised matrix; the dependence plot follows exactly when the feature choice is valid, with the requested feature or the first trained column, and otherwise the run fails after the summary plot with IndexError or UnknownFeature |
| `Shapify.ExplainSucceeds` | shapify.py:57-83 | for a supported kind, explainer output of the sample's shape in any layout and a valid feature choice, the run draws both plots with the normalised matrix |
| `Shapify.ExplainMismatch` | shapify.py:69-71 | for a supported kind whose normalisation succeeds, the run fails with ShapeMismatch before any plot exactly when the normalised matrix's shape differs from the sample's |

## Left out

- `load_data_for_shap` (shapify.py:9-19) reads a CSV or draws seeded Gaussian rows. Both are I/O or a foreign floating-point random source. The model keeps only what `main` relies on: the frame's columns are exactly the trained columns, and its row count is the parameter `available`.
- The explainer's construction and its `shap_values` call are opaque library code. Their output enters `Shapify.Explain` as the parameter `raw`.
- `X.sample` is modelled by its shape only (the right number of rows, the same columns). Which rows it picks, and its fixed seed, are not modelled.
- Plotting and `savefig` (shapify.py:73-79, 85-92) are rendering and file output. The model records only which plots a run reaches and what data they receive: the `SummaryOnly` and `Plotted` cases of `Run`.
- Argument parsing and the checks that the model and column files exist (shapify.py:36-50) are command-line and filesystem plumbing. `kind` is a free string in the model, so the `else` branch at shapify.py:66-67 stays reachable even though argparse restricts the choices.
- The attribution values themselves are floats computed by shap. They are the uninterpreted type `T`.
- Only list entries and arrays of the expected rank are modelled. The source does not check that a per-class list holds 2-D arrays, and it assumes that a non-list, non-3-D input is 2-D. Arrays of another rank are outside the model.
- train.py and utils.py are model fitting, metrics and JSON persistence, all done by library calls. They are not part of this model.
