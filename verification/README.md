# Survivor selection in elm's model search

This project models `base_selection`, the selection step of elm's iterative
model search (`elm/model_selection/base.py`). Given the candidate parameter
sets of one generation and the numpy array of their fitness scores, it
decides which candidates survive. It does that in a fixed order:

1. The name `'pareto_front'` given for `sort_fitness` is replaced by the
   built-in Pareto-front sort.
2. Without a selection strategy the candidates are returned unchanged.
3. Missing score weights default to the single weight `(1,)`.
4. If sorting is on, the fitness array is transposed when its second axis has
   one entry per candidate and its first axis does not. The array must then
   be two-dimensional with one row per candidate, and have one column per
   score weight. The sort ranks the candidates, and the strategy receives
   the candidates, the ranked indices and the keyword options.
5. If sorting is off, the strategy receives only the candidates and the
   options.

The model is pure Dafny, as the source is: one function, `BaseSelection`,
with the source's rebinding of locals written as `var` bindings. Errors
are values of a `Result` type:
- `IndexOutOfRange` is the IndexError raised when `shape[1]` is read on an
  array with fewer than two axes.
- `ShapeError` is raised when the array is not two-dimensional with one row
  per candidate.
- `WeightError` is raised when the column count differs from the number of
  weights.
- `NotCallable` is the TypeError raised when `sort_fitness` is a name other
  than `'pareto_front'`.

In Python `ShapeError` and `WeightError` are both `ValueError`s, told apart
only by their messages; the model gives each its own constructor.

Files:
- `wrappers.dfy`: `Option` and `Result`.
- `fitness_array.dfy`: the fitness array and numpy's transpose. A
  two-dimensional array keeps its cells. An array of any other rank keeps
  only its shape, because `base_selection` looks only at the shape of such
  an array and always rejects it.
- `base_selection.dfy`: `base_selection` and its properties.

The sorting function and the selection strategy are function-valued
parameters. So is the built-in `pareto_front`, because its file,
`elm/model_selection/sorting.py`, is not part of this model. The default
`sort_fitness=pareto_front` of the signature is written
`Ranking(paretoFront)`. The name `'pareto_front'` is `Named`, and
`ResolveSort` turns it into that same value. A falsy
`model_selection` is `None` of an `Option`. `sort_fitness=None` is `NoSort`.
The two ways of calling the strategy, with and without the ranked indices,
are one function that takes an `Option` of indices.

## Model

| member | source | states |
|---|---|---|
| `FitnessArray.Reversed` | elm/model_selection/base.py:44 | the reversed shape has the same length, and axis `i` is the original axis `len-1-i` |
| `FitnessArray.ReversedInvolutive` | elm/model_selection/base.py:44 | reversing a shape twice gives it back |
| `FitnessArray.Fitness.Shape` | elm/model_selection/base.py:43-45 | numpy's `.shape`, read at the two checks; for a well-formed array it has exactly two axes precisely when the array is a 2-D grid |
| `FitnessArray.Fitness.Transpose` | elm/model_selection/base.py:44 | `.T` yields a well-formed array whose shape is the reversed shape; for a 2-D array cell `(i, j)` moves to `(j, i)` |
| `FitnessArray.TransposeInvolutive` | elm/model_selection/base.py:43-44 | transposing twice gives back the original array, for every rank |
| `ModelSelection.ResolveSort` | elm/model_selection/base.py:35-36 | exactly the name `'pareto_front'` becomes the built-in sort; `None`, functions and other names are kept |
| `ModelSelection.Weights` | elm/model_selection/base.py:40-41 | missing score weights become the single weight 1; supplied weights are used as given |
| `ModelSelection.Orient` | elm/model_selection/base.py:43-44 | the array keeps its rank and is either left alone or transposed; it is left alone when its first axis already fits the candidates (a square array included) or its second axis does not; for a 2-D array the oriented row count fits exactly when either axis fits |
| `ModelSelection.BaseSelection` | elm/model_selection/base.py:27-55 | no error is raised unless a strategy is given and sorting is on |
| `ModelSelection.PassThrough` | elm/model_selection/base.py:37-38 | without a strategy the result is the candidates, for every fitness value, sort and weights |
| `ModelSelection.SentinelIsParetoFront` | elm/model_selection/base.py:35-36 | passing the name `'pareto_front'` gives the same outcome as passing the built-in sort itself |
| `ModelSelection.DefaultWeightIsOne` | elm/model_selection/base.py:40-41 | omitting the weights gives the same outcome as passing the single weight 1 |
| `ModelSelection.OrientFixesRows` | elm/model_selection/base.py:43-45 | a 2-D array is swapped to `(shape[1], shape[0])` exactly when `shape[1] == N != shape[0]`, the swap is undone by transposing again, and orienting twice equals orienting once |
| `ModelSelection.UnrankedDispatch` | elm/model_selection/base.py:53-54 | with sorting off the strategy is called without indices and its answer is returned, for every fitness value (no shape check) |
| `ModelSelection.IndexOutOfRangeIff` | elm/model_selection/base.py:43 | when the array is examined, the IndexError occurs exactly for arrays with fewer than two axes and carries their shape |
| `ModelSelection.ShapeErrorIff` | elm/model_selection/base.py:43-47 | the shape error occurs exactly for arrays of more than two axes, and for 2-D arrays where neither axis has one entry per candidate |
| `ModelSelection.WeightErrorIff` | elm/model_selection/base.py:48-50 | the weight error occurs exactly for 2-D arrays that pass the row check and whose other axis differs from the number of weights in force; it carries that column count and the weight count |
| `ModelSelection.NotCallableIff` | elm/model_selection/base.py:51 | a name other than `'pareto_front'` fails exactly when the array passes both checks |
| `ModelSelection.RankedDispatch` | elm/model_selection/base.py:51-52 | with sorting on, success happens exactly when both checks pass and the sort is callable; the sort then receives the weights in force and an `N × len(weights)` array (the original if it had `N` rows, else its transpose), and the strategy's answer on the candidates, exactly those indices and the options is returned |
| `ModelSelection.ObjectivesByCandidatesAccepted` | elm/model_selection/base.py:43-52 | two candidates with a `(1, 2)` array and default weights: the sort receives the `(2, 1)` transpose |
| `ModelSelection.MismatchedRowsRejected` | elm/model_selection/base.py:43-47 | two candidates with a `(3, 1)` array: shape error carrying `(3, 1)` |

## Left out

- The `logger.debug` call (line 34) is diagnostic output with no effect on the result.
- The Pareto-front algorithm (`elm/model_selection/sorting.py` is not part of this model) and the concrete selection strategies are function-valued parameters. Errors raised inside them are not modelled.
- Python truthiness: a falsy `model_selection` is `None`, and any strategy that is given is a callable. `model_selection_kwargs or {}` (line 39) does not change the options, so they are passed through unchanged.
- The floating-point values in the fitness array are not interpreted: cells are of an arbitrary type. Arrays of rank other than two keep only their shape, and their transpose is modelled on the shape alone.
- Score weights are a sequence of reals. The default `(1,)` is `[1.0]`.
- The unused imports and the unused parameters `cv_results`, `X` and `y` (lines 11-20, 32) have no effect.
- The error message text is not modelled. The weight error message (lines 49-50) prints the column count where it announces the weight count and the reverse. `WeightError` records the two counts under their right names.
- A fitness value that is not an array at all (no `.shape`) is not modelled. `BaseSelection` asks for a well-formed array only when it reads the shape. Otherwise the array may be anything, even ragged.
